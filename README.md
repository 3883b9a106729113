# Human-in-the-loop approval demo: a Dafny model

The repository is a set of Streamlit pages that demonstrate human-in-the-loop
(HITL) interrupts for AI agents. This project models the one piece of logic
in it: the approval demo. It exists in two copies:

- the stand-alone page `streamlit_hitl_basic.py`;
- demo 1 of the dashboard `app.py`, which adds its own page router and a
  chat page (demo 3) gated by the agent runtime's interrupt.

In both copies the approval demo keeps three fields in the session store:

- `step`: 1 is input, 2 is permission, 4 is answer;
- `query`: the submitted text;
- `decision`: None, `'yes'` or `'no'`.

The dashboard's store also holds `current_view` and the demo-2 and demo-3
fields; of these only `current_view` is modelled.

The query form moves step 1 to step 2. The Yes and No buttons move step 2 to
step 4. "Start Over" resets the fields. At step 4 with `'yes'` the page asks
the language model and shows its answer, or the text of its failure. Beside
the panel, a flowchart of five nodes is coloured according to the step and
the decision.

Modules:

- `HitlTypes` (hitl_types.dfy): the vocabulary both copies share. It holds
  the `State` record, the widget interactions (`Event`), the colours, nodes
  and edges of the flowchart, and the abstract model reply (`LlmReply`). It
  also defines the trail a session has taken through the flowchart.
- `HitlBasic` (hitl_basic.dfy): `streamlit_hitl_basic.py`.
- `Dashboard` (dashboard.dfy): `app.py`. It covers demo 1, the router over
  `current_view`, and the demo-3 interrupt gate.
- `CrossCheck` (cross_check.dfy): what the two copies share and where they
  differ.

Each copy has the same shape:

- a pure transition `Next(s, ev)` that follows the page's `if/elif` on the
  step;
- `Run` over a sequence of interactions;
- an invariant `Inv`, proved to describe exactly the reachable states;
- a `Session` class holding the session-store fields. Its interaction
  handler (`Handle`, `HandleDemo1`) is specified through `Next`. The
  constructor and the reset (and, in the dashboard, `NavigateTo`) state the
  new fields directly;
- the flowchart as a function from step and decision to a node-to-colour
  map and the fixed edge list.

The language model is a parameter `llm: string -> LlmReply`. Its answer is
shown, not stored, because the page asks the model again on every run at
step 4. The model therefore has no result field.

## Model

| member | source | states |
|---|---|---|
| `HitlTypes.NamesIdentify` | streamlit_hitl_basic.py:65-93 | no two nodes share a Graphviz identifier and no two fill colours share a name |
| `HitlTypes.Trail` | streamlit_hitl_basic.py:96-99 | the trail of a well-formed state always starts at node 1 |
| `HitlTypes.TrailIsWalk` | streamlit_hitl_basic.py:96-99 | each trail walks along the drawn edges; at step 4 it leaves node 2 by the edge labelled with the decision taken |
| `HitlBasic.Next` | streamlit_hitl_basic.py:113-177 | at step 1 a submitted non-empty query is stored and the step becomes 2, and an empty one changes nothing; at step 2 Yes records 'yes' and No records 'no', both moving to step 4 with the query kept; at step 4 "Start Over" returns exactly to the initial state; every other interaction changes nothing; a run keeps the reachable-state invariant, only moves the step forward except for "Start Over", never changes the query after step 1, and changes the decision only when step 2 moves to step 4 |
| `HitlBasic.RunKeepsInv` | streamlit_hitl_basic.py:47-177 | every sequence of interactions from a reachable state ends in a reachable state |
| `HitlBasic.ReachableIffInv` | streamlit_hitl_basic.py:47-177 | a state is reachable iff the step is 1, 2 or 4, the decision is None iff the step is not 4, and the query is empty iff the step is 1 |
| `HitlBasic.Flowchart` | streamlit_hitl_basic.py:60-101 | every node gets a fill and the edges are the fixed four; nodes 1 and 2 are light blue exactly at their own step, light grey exactly after it, and white before it; at step 4 exactly one of node 3a (for 'no') and node 4 (for 'yes') is highlighted; node 3b is light grey iff step 4 with 'yes'; node 3a is white iff not step 4 with 'no', and nodes 3b and 4 are white iff not step 4 with 'yes' |
| `HitlBasic.HighlightsFollowTrail` | streamlit_hitl_basic.py:60-99 | in a reachable state the coloured nodes are exactly those on the trail taken; before step 4 the only light-blue node is the last node of the trail |
| `HitlBasic.AnswerText` | streamlit_hitl_basic.py:151-158 | a model reply is shown unchanged; a failure is shown as "Error communicating with OpenAI: " followed by its message |
| `HitlBasic.InteractionPanel` | streamlit_hitl_basic.py:113-172 | the answer is shown iff the step is 4 and the decision is 'yes', and it is the model's reply to the stored query; step 1 shows the query form, step 2 asks permission for the stored query, and step 4 without 'yes' shows the refusal |
| `HitlBasic.ProducerOnlyOnApproval` | streamlit_hitl_basic.py:145-158 | outside step 4 with 'yes', the panel is the same whatever the model would answer |
| `HitlBasic.Scenarios` | streamlit_hitl_basic.py:113-158 | submitting "buy AAPL" then Yes leads to step 4 with 'yes' and shows the model's answer; with No it shows the refusal |
| `HitlBasic.Session.constructor` | streamlit_hitl_basic.py:47-52 | a new session has step 1, an empty query and no decision |
| `HitlBasic.Session.ResetApp` | streamlit_hitl_basic.py:54-57 | `reset_app` restores exactly the initial fields from any state |
| `HitlBasic.Session.Handle` | streamlit_hitl_basic.py:113-177 | the handlers change the fields as `Next` does and keep the invariant |
| `Dashboard.Next` | app.py:170-209 | at step 1 a submission stores the entered text as it is, even empty, and moves to step 2; at step 2 Yes records 'yes' and No records 'no', both moving to step 4 with the query kept; at step 4 "Start Over" returns exactly to the initial state; every other interaction changes nothing; a run keeps the reachable-state invariant, only moves the step forward except for "Start Over", never changes the query after step 1, and changes the decision only when step 2 moves to step 4 |
| `Dashboard.RunKeepsInv` | app.py:127-209 | every sequence of interactions from a reachable demo-1 state ends in a reachable one |
| `Dashboard.ReachableIffInv` | app.py:127-209 | a demo-1 state is reachable iff the step is 1, 2 or 4, the decision is None iff the step is not 4, and the query is empty at step 1; step 3 is never entered, and an empty query can reach steps 2 and 4 |
| `Dashboard.Flowchart` | app.py:140-164 | every node gets a fill and the edges are the fixed four; nodes 1 and 2 are light blue iff at their own step, light grey iff after it, and white iff before it; node 3a is '#ffcccc' iff step 4 with 'no'; nodes 3b (light grey) and 4 (light green) are highlighted iff step 4 with 'yes'; otherwise these three are white |
| `Dashboard.HighlightsFollowTrail` | app.py:140-163 | in a reachable demo-1 state the coloured nodes are exactly those on the trail taken; before step 4 the only light-blue node is the last node of the trail |
| `Dashboard.AnswerText` | app.py:196-203 | a model reply is shown unchanged; a failure is shown as "Error: " followed by its message |
| `Dashboard.InteractionPanel` | app.py:168-209 | the bot response is shown iff the step is 4 and the decision is 'yes', and it is the model's reply to the stored query; step 1 shows the query form, step 2 asks permission for the stored query, and step 4 without 'yes' shows the refusal |
| `Dashboard.ProducerOnlyOnApproval` | app.py:192-205 | outside step 4 with 'yes', the panel is the same whatever the model would answer |
| `Dashboard.Route` | app.py:448-455 | a page is rendered iff the view is one of home, demo1, demo2 and demo3; the page rendered belongs to that view; demo3 renders `render_demo3_fixed` |
| `Dashboard.RouteInvertsViewOf` | app.py:448-455 | each routable page is rendered for its own view and for no other |
| `Dashboard.ApprovalRequest` | app.py:409-416 | an approval request is shown iff the page is interrupted, and it shows the value of the first interrupt of the first task |
| `Dashboard.Demo3Call` | app.py:405-442 | while interrupted, only Approve and Reject reach the runtime, as resume "yes" and resume "no"; otherwise only a non-empty chat prompt does, as a new message |
| `Dashboard.RequestGatesInput` | app.py:409-442 | an approval request is on screen iff Approve sends resume "yes", and iff Reject sends resume "no"; while it is shown a chat prompt sends nothing, and while none is shown a non-empty prompt is sent as a new message |
| `Dashboard.Session.constructor` | app.py:70-71 | a new session opens on the home view, one of the four routable views, and demo 1 starts from its initial fields |
| `Dashboard.Session.NavigateTo` | app.py:74-76 | `navigate_to(v)`, called only with one of the four views, sets the current view to v and leaves demo 1's fields alone; afterwards the router has exactly one page to render |
| `Dashboard.Session.ResetD1` | app.py:134-137 | `reset_d1` restores exactly demo 1's initial fields from any state and leaves the view alone |
| `Dashboard.Session.HandleDemo1` | app.py:170-209 | demo 1's handlers change its fields as `Dashboard.Next` does, keep its invariant and leave the view alone |
| `CrossCheck.FlowchartsAgree` | app.py:140-164 | the two flowchart functions give the same diagram for every step and decision |
| `CrossCheck.NextAgrees` | app.py:174-176 | a run changes the state alike in both copies unless it submits an empty query |
| `CrossCheck.EmptyQueryDiverges` | app.py:174-176 | an empty submission moves demo 1 to step 2 but leaves the stand-alone demo at its initial state |
| `CrossCheck.RunsAgree` | app.py:170-209 | any sequence of interactions without an empty submission leads both copies to the same state |
| `CrossCheck.AnswerTextsAgreeIffReply` | app.py:202 | the two copies show the same text for a model reply and different texts for every failure |

## Behaviour of the code worth noting

- The stand-alone page only tests that the query is non-empty
  (streamlit_hitl_basic.py:119). It does not trim it, so a query of spaces
  is accepted. Demo 1 does no check at all (app.py:174-176).
- No interaction raises an error. The widgets of a step exist only at that
  step, so an interaction meant for another step cannot happen, and `Next`
  leaves the state unchanged for it.
- The model's answer is not stored in the session. The page asks the model
  again on every run at step 4 (streamlit_hitl_basic.py:150-158,
  app.py:196-203), so the model keeps only the three fields.

## Left out

- Streamlit rendering is left out: layout, CSS, spinners, markdown and
  `st.rerun`. Each form or button becomes one `Event` handled by one run.
- The query echo at step 4 of the stand-alone page (line 143) is left out.
  `Panel` records only what depends on the state's logic.
- Graphviz graph attributes are left out (direction, node shape, font). The
  diagram is the node-to-colour map plus the edge list.
- `ChatOpenAI` is a network call, so it is the parameter `llm`. How many
  times the model is called per run is not modelled, only which runs depend
  on it.
- The lazy creation of the `d1_` fields inside `render_demo1` (app.py:127-132)
  is done in the `Session` constructor instead. Nothing reads those fields
  before that creation.
- Demo 2 and the agent runtime (`invoke`, `get_state`, `Command(resume=...)`)
  are an external system. So is the message history they return. Demo 3 is
  modelled only as the interrupt check and what each interaction sends to
  the runtime.
- `render_demo3` and `demo3_process_logic` (app.py:279-382) are left out.
  The router never calls them. The top-level lines that create
  `d3_pending_input` (app.py:366-367) run on every run, but nothing the
  router reaches reads that field, so it is left out too.
- `uuid` thread ids, the `time.strftime` timestamp and `load_dotenv` are left
  out. They depend on the environment or on chance.
