/**
  The human-in-the-loop review workflow: a generation node, a review gate that
  suspends for an external approve/reject decision, and two terminal nodes.

  The language model is an uninterpreted parameter `llm: string -> string`, and
  the suspension at the review gate is an explicit `Resume` value supplied by
  the caller, so a whole run is a function of the input state and the sequence
  of resumes.
 */
module HumanInLoop {

  /** The values the state's `review` field takes: "approve", "reject", "regenerate" and "". */
  datatype ReviewTag = ReviewApprove | ReviewReject | ReviewRegenerate | ReviewNone

  /** The state record that flows through the graph. */
  datatype ReviewState = ReviewState(
    input: string,
    response: string,
    review: ReviewTag,
    comment: string,
    iteration: int)

  /** The value a resume of the suspended review gate carries. */
  datatype Decision = DecideApprove | DecideReject

  /** The nodes the review gate may send control to. */
  datatype Route = ToApprovalNode | ToLlmResponse | ToRejectionNode

  /** What the review gate returns: where to go next and the new `review` value. */
  datatype Command = Command(goto: Route, update: ReviewTag)

  /** One resume of the review gate: the decision and, for a rejection, the new feedback text. */
  datatype Resume = Resume(decision: Decision, feedback: string)

  /** Where a run stands: suspended at the review gate, or at one of the two terminal nodes. */
  datatype Node = HumanReviewNode | ApprovalNode | RejectionNode

  /** The result of a run: its final node and state, how many generations ran
      and how many resumes were consumed. */
  datatype Outcome = Outcome(node: Node, state: ReviewState, generations: nat, consumed: nat)

  const MaxIterations: int := 3
  const FeedbackHeader: string := "\n\nHuman feedback: "
  const FeedbackFooter: string := "\nPlease revise accordingly."
  const FinalRejectionMessage: string := "Final rejection after 3 attempts."

  /** The prompt sent to the model: the input, with the feedback appended when
      there is any. The prompt always starts with the input; it is the input
      alone exactly when there is no feedback; otherwise the feedback can be read
      back out of it. */
  function Prompt(input: string, comment: string): (p: string)
    ensures input <= p
    ensures p == input <==> comment == ""
    ensures comment != "" ==>
      |p| == |input| + |FeedbackHeader| + |comment| + |FeedbackFooter| &&
      p[|input| + |FeedbackHeader| .. |p| - |FeedbackFooter|] == comment
  {
    if comment == "" then input
    else
      var p := (input + FeedbackHeader) + comment + FeedbackFooter;
      assert p[..|input|] == input;
      p
  }

  /** The generation node: builds the prompt, asks the model, counts the attempt. */
  function LlmResponse(llm: string -> string, s: ReviewState): (r: ReviewState)
    ensures r.input == s.input && r.comment == s.comment
    ensures r.iteration == s.iteration + 1
    ensures r.review == ReviewRegenerate <==> s.comment != ""
    ensures r.review == ReviewNone <==> s.comment == ""
    ensures r.response == llm(Prompt(s.input, s.comment))
  {
    // The node copies the comment only when it is non-empty, which leaves it unchanged.
    ReviewState(
      input := s.input,
      response := llm(Prompt(s.input, s.comment)),
      iteration := s.iteration + 1,
      review := if s.comment != "" then ReviewRegenerate else ReviewNone,
      comment := s.comment)
  }

  /** The review gate, once resumed with a decision. */
  function HumanReview(decision: Decision, s: ReviewState): (c: Command)
    ensures c.goto.ToApprovalNode? <==> decision.DecideApprove?
    ensures c.goto.ToLlmResponse? <==> decision.DecideReject? && s.iteration < MaxIterations
    ensures c.goto.ToRejectionNode? <==> decision.DecideReject? && s.iteration >= MaxIterations
    ensures c.goto.ToApprovalNode? ==> c.update == ReviewApprove
    ensures c.goto.ToLlmResponse? ==> c.update == ReviewRegenerate
    ensures c.goto.ToRejectionNode? ==> c.update == ReviewReject
  {
    if decision.DecideApprove? then Command(ToApprovalNode, ReviewApprove)
    else if s.iteration < MaxIterations then Command(ToLlmResponse, ReviewRegenerate)
    else Command(ToRejectionNode, ReviewReject)
  }

  /** The rejection node: replaces the response with the fixed message and nothing else. */
  function FinalRejection(s: ReviewState): (r: ReviewState)
    ensures r.response == FinalRejectionMessage
    ensures r.input == s.input && r.review == s.review && r.comment == s.comment
    ensures r.iteration == s.iteration
  {
    s.(response := FinalRejectionMessage)
  }

  /** The approval node: the identity. */
  function Approve(s: ReviewState): (r: ReviewState)
    ensures r == s
  {
    s
  }

  /** How the review front end merges new feedback into the accumulated comment. */
  function MergeFeedback(prior: string, feedback: string): (r: string)
    ensures prior == "" ==> r == feedback
    ensures prior != "" ==> |r| == |prior| + 1 + |feedback| && r[..|prior|] == prior && r[|prior|..] == "\n" + feedback
  {
    if prior == "" then feedback else prior + "\n" + feedback
  }

  /** One resume of the suspended review gate: a rejection first merges its
      feedback into the comment; the gate's update is applied; control moves to
      the routed node, which for a regeneration runs the generation node and
      suspends again. */
  function ResumeReview(llm: string -> string, s: ReviewState, r: Resume): (result: (Node, ReviewState))
    ensures result.1.input == s.input
    ensures result.0.ApprovalNode? <==> r.decision.DecideApprove?
    ensures result.0.HumanReviewNode? <==> r.decision.DecideReject? && s.iteration < MaxIterations
    ensures result.0.RejectionNode? <==> r.decision.DecideReject? && s.iteration >= MaxIterations
    ensures result.0.HumanReviewNode? ==>
      var m := MergeFeedback(s.comment, r.feedback);
      && result.1.iteration == s.iteration + 1
      && result.1.comment == m
      && result.1.response == llm(Prompt(s.input, m))
      && (result.1.review == ReviewRegenerate <==> m != "")
      && (result.1.review == ReviewNone <==> m == "")
    ensures !result.0.HumanReviewNode? ==> result.1.iteration == s.iteration
    ensures result.0.ApprovalNode? ==> result.1 == s.(review := ReviewApprove)
    ensures result.0.RejectionNode? ==>
      result.1 == s.(review := ReviewReject, response := FinalRejectionMessage,
                     comment := MergeFeedback(s.comment, r.feedback))
  {
    var s1 := if r.decision.DecideReject? then s.(comment := MergeFeedback(s.comment, r.feedback)) else s;
    var c := HumanReview(r.decision, s1);
    var s2 := s1.(review := c.update);
    match c.goto
    case ToApprovalNode => (ApprovalNode, Approve(s2))
    case ToRejectionNode => (RejectionNode, FinalRejection(s2))
    case ToLlmResponse => (HumanReviewNode, LlmResponse(llm, s2))
  }

  /** A run from the review gate, suspended in state `s`, consuming `resumes[i..]`;
      `gens` generations have run so far. */
  function RunFrom(llm: string -> string, s: ReviewState, resumes: seq<Resume>, i: nat, gens: nat): (o: Outcome)
    requires i <= |resumes|
    ensures o.state.input == s.input
    ensures i <= o.consumed <= |resumes|
    ensures o.node.HumanReviewNode? ==> o.consumed == |resumes|
    ensures o.generations - gens == o.state.iteration - s.iteration
    decreases |resumes| - i
  {
    if i == |resumes| then Outcome(HumanReviewNode, s, gens, i)
    else
      var (n, s') := ResumeReview(llm, s, resumes[i]);
      if n.HumanReviewNode? then RunFrom(llm, s', resumes, i + 1, gens + 1)
      else Outcome(n, s', gens, i + 1)
  }

  /** A whole run: the graph is entered at the generation node, then alternates
      between the review gate and regeneration until a terminal node is reached
      or the resumes run out. */
  function Run(llm: string -> string, init: ReviewState, resumes: seq<Resume>): (o: Outcome)
    ensures o.state.input == init.input
    ensures o.consumed <= |resumes|
    ensures o.generations - 1 == o.state.iteration - (init.iteration + 1)
    ensures o.node.HumanReviewNode? ==> o.consumed == |resumes|
  {
    RunFrom(llm, LlmResponse(llm, init), resumes, 0, 1)
  }

  /** The counters of a run that started at iteration 0 and has now had
      `s.iteration` generations, one per consumed resume plus the first. */
  lemma {:induction false} RunFromBounds(llm: string -> string, s: ReviewState, resumes: seq<Resume>, i: nat, gens: nat)
    requires i <= |resumes|
    requires 1 <= s.iteration <= MaxIterations
    requires gens == s.iteration && i == s.iteration - 1
    ensures var o := RunFrom(llm, s, resumes, i, gens);
      && o.generations == o.state.iteration
      && 1 <= o.state.iteration <= MaxIterations
      && o.state.input == s.input
      && (o.node.HumanReviewNode? ==> o.consumed == |resumes| && o.consumed == o.generations - 1)
      && (!o.node.HumanReviewNode? ==> o.consumed == o.generations)
      && (o.node.RejectionNode? ==>
            o.state.iteration == MaxIterations && o.state.response == FinalRejectionMessage &&
            o.state.review == ReviewReject)
      && (o.node.ApprovalNode? ==> o.state.review == ReviewApprove)
    decreases |resumes| - i
  {
    if i < |resumes| {
      var (n, s') := ResumeReview(llm, s, resumes[i]);
      if n.HumanReviewNode? {
        RunFromBounds(llm, s', resumes, i + 1, gens + 1);
      }
    }
  }

  /** Enough resumes always reach a terminal node: a run at iteration `s.iteration`
      needs at most `MaxIterations + 1 - s.iteration` more decisions. */
  lemma {:induction false} RunFromTerminates(llm: string -> string, s: ReviewState, resumes: seq<Resume>, i: nat, gens: nat)
    requires i <= |resumes|
    requires s.iteration <= MaxIterations
    requires |resumes| - i >= MaxIterations + 1 - s.iteration
    ensures !RunFrom(llm, s, resumes, i, gens).node.HumanReviewNode?
    decreases |resumes| - i
  {
    var (n, s') := ResumeReview(llm, s, resumes[i]);
    if n.HumanReviewNode? {
      RunFromTerminates(llm, s', resumes, i + 1, gens + 1);
    }
  }

  /** Termination bound: from iteration 0, at most three generations run, the
      iteration counter never exceeds three, and any three decisions reach the
      approval or the rejection node. */
  lemma ReviewTerminates(llm: string -> string, init: ReviewState, resumes: seq<Resume>)
    requires init.iteration == 0
    ensures var o := Run(llm, init, resumes);
      && o.generations == o.state.iteration
      && 1 <= o.generations <= MaxIterations
      && o.consumed <= MaxIterations
      && o.state.input == init.input
      && (o.node.HumanReviewNode? ==> o.consumed == |resumes|)
      && (o.node.RejectionNode? ==> o.state.response == FinalRejectionMessage && o.generations == MaxIterations)
    ensures |resumes| >= MaxIterations ==> !Run(llm, init, resumes).node.HumanReviewNode?
  {
    RunFromBounds(llm, LlmResponse(llm, init), resumes, 0, 1);
    if |resumes| >= MaxIterations {
      RunFromTerminates(llm, LlmResponse(llm, init), resumes, 0, 1);
    }
  }

  /** The state the front end starts a session with. */
  function InitialState(input: string): (s: ReviewState)
    ensures s.input == input && s.comment == "" && s.iteration == 0
  {
    ReviewState(input, "", ReviewNone, "", 0)
  }

  /** Three rejections in a row end at the rejection node after three generations. */
  lemma ThreeRejections(llm: string -> string, input: string, f1: string, f2: string, f3: string)
    ensures var o := Run(llm, InitialState(input), [Resume(DecideReject, f1), Resume(DecideReject, f2), Resume(DecideReject, f3)]);
      o.node.RejectionNode? && o.state.response == FinalRejectionMessage &&
      o.state.iteration == 3 && o.generations == 3 && o.consumed == 3
  {
    var rs := [Resume(DecideReject, f1), Resume(DecideReject, f2), Resume(DecideReject, f3)];
    var s1 := LlmResponse(llm, InitialState(input));
    var s2 := ResumeReview(llm, s1, rs[0]).1;
    var s3 := ResumeReview(llm, s2, rs[1]).1;
    var s4 := ResumeReview(llm, s3, rs[2]).1;
    assert RunFrom(llm, s3, rs, 2, 3) == Outcome(RejectionNode, s4, 3, 3);
    assert RunFrom(llm, s2, rs, 1, 2) == RunFrom(llm, s3, rs, 2, 3);
    assert RunFrom(llm, s1, rs, 0, 1) == RunFrom(llm, s2, rs, 1, 2);
  }

  /** A rejection followed by an approval ends approved with the second generation's output. */
  lemma RejectThenApprove(llm: string -> string, input: string, feedback: string)
    ensures var o := Run(llm, InitialState(input), [Resume(DecideReject, feedback), Resume(DecideApprove, "")]);
      o.node.ApprovalNode? && o.state.iteration == 2 && o.generations == 2 &&
      o.state.review == ReviewApprove && o.state.response == llm(Prompt(input, feedback))
  {
    var rs := [Resume(DecideReject, feedback), Resume(DecideApprove, "")];
    var s1 := LlmResponse(llm, InitialState(input));
    var s2 := ResumeReview(llm, s1, rs[0]).1;
    var s3 := ResumeReview(llm, s2, rs[1]).1;
    assert s2.response == llm(Prompt(input, feedback));
    assert RunFrom(llm, s2, rs, 1, 2) == Outcome(ApprovalNode, s3, 2, 2);
    assert RunFrom(llm, s1, rs, 0, 1) == RunFrom(llm, s2, rs, 1, 2);
  }

  /** Feedback from two successive rejections reaches the third generation merged, in order. */
  lemma FeedbackAccumulates(llm: string -> string, input: string)
    ensures var o := Run(llm, InitialState(input), [Resume(DecideReject, "shorten it"), Resume(DecideReject, "add an example")]);
      o.node.HumanReviewNode? && o.state.iteration == 3 &&
      o.state.comment == "shorten it\nadd an example" &&
      o.state.response == llm(Prompt(input, "shorten it\nadd an example"))
  {
    var rs := [Resume(DecideReject, "shorten it"), Resume(DecideReject, "add an example")];
    var s1 := LlmResponse(llm, InitialState(input));
    RejectionsAccumulate(llm, s1, rs, 0, 1);
    assert rs[0..] == rs;
    assert Feedbacks(rs) == ["shorten it", "add an example"];
    assert MergeFeedback("", "shorten it") == "shorten it";
    assert MergeAll("", ["shorten it", "add an example"]) == MergeAll("shorten it", ["add an example"]);
    assert MergeFeedback("shorten it", "add an example") == "shorten it\nadd an example";
  }

  /** The feedback texts carried by a sequence of resumes, in order. */
  function Feedbacks(resumes: seq<Resume>): (fs: seq<string>)
    ensures |fs| == |resumes|
    ensures forall j :: 0 <= j < |resumes| ==> fs[j] == resumes[j].feedback
  {
    if resumes == [] then [] else [resumes[0].feedback] + Feedbacks(resumes[1..])
  }

  /** The comment after merging the feedback texts `fs` into `prior`, one after the
      other. Earlier feedback is never lost, and the latest comes last. */
  function MergeAll(prior: string, fs: seq<string>): (r: string)
    ensures prior <= r
    ensures fs != [] ==> |fs[|fs| - 1]| <= |r| && r[|r| - |fs[|fs| - 1]|..] == fs[|fs| - 1]
    decreases |fs|
  {
    if fs == [] then prior else MergeAll(MergeFeedback(prior, fs[0]), fs[1..])
  }

  /** A run of rejections below the iteration cap: each one regenerates, so the
      run stays suspended at the review gate, one generation per rejection, with
      the comment holding every rejection's feedback merged in order and the
      response the model's answer to the prompt carrying that comment. */
  lemma {:induction false} RejectionsAccumulate(llm: string -> string, s: ReviewState, resumes: seq<Resume>, i: nat, gens: nat)
    requires i <= |resumes|
    requires s.iteration + (|resumes| - i) <= MaxIterations
    requires forall j :: i <= j < |resumes| ==> resumes[j].decision.DecideReject?
    ensures var o := RunFrom(llm, s, resumes, i, gens);
      && o.node.HumanReviewNode?
      && o.state.iteration == s.iteration + (|resumes| - i)
      && o.generations == gens + (|resumes| - i)
      && o.state.comment == MergeAll(s.comment, Feedbacks(resumes[i..]))
      && (i < |resumes| ==> o.state.response == llm(Prompt(s.input, o.state.comment)))
    decreases |resumes| - i
  {
    if i < |resumes| {
      var (n, s') := ResumeReview(llm, s, resumes[i]);
      assert n.HumanReviewNode?;
      var fs := Feedbacks(resumes[i..]);
      assert fs[0] == resumes[i].feedback;
      assert resumes[i..][1..] == resumes[i + 1..];
      assert fs[1..] == Feedbacks(resumes[i + 1..]);
      RejectionsAccumulate(llm, s', resumes, i + 1, gens + 1);
      if i + 1 == |resumes| {
        assert resumes[i + 1..] == [];
      }
    }
  }

  /** The graph runtime: enter at the generation node, then, while suspended at
      the review gate and a resume is available, apply it and follow the route. */
  method RunReview(llm: string -> string, init: ReviewState, resumes: seq<Resume>) returns (o: Outcome)
    ensures o == Run(llm, init, resumes)
    ensures o.state.input == init.input
    ensures init.iteration == 0 ==> 1 <= o.generations <= MaxIterations && o.state.iteration <= MaxIterations
    ensures init.iteration == 0 && |resumes| >= MaxIterations ==> !o.node.HumanReviewNode?
  {
    var s := LlmResponse(llm, init);
    var gens: nat := 1;
    var i := 0;
    var node := HumanReviewNode;
    while node.HumanReviewNode? && i < |resumes|
      invariant 0 <= i <= |resumes|
      invariant s.input == init.input
      invariant node.HumanReviewNode? ==> RunFrom(llm, s, resumes, i, gens) == Run(llm, init, resumes)
      invariant !node.HumanReviewNode? ==> Outcome(node, s, gens, i) == Run(llm, init, resumes)
      decreases |resumes| - i
    {
      var r := resumes[i];
      if r.decision.DecideReject? {
        s := s.(comment := MergeFeedback(s.comment, r.feedback));
      }
      var c := HumanReview(r.decision, s);
      s := s.(review := c.update);
      match c.goto {
        case ToApprovalNode =>
          s := Approve(s);
          node := ApprovalNode;
        case ToRejectionNode =>
          s := FinalRejection(s);
          node := RejectionNode;
        case ToLlmResponse =>
          s := LlmResponse(llm, s);
          gens := gens + 1;
      }
      i := i + 1;
    }
    o := Outcome(node, s, gens, i);
    if init.iteration == 0 {
      ReviewTerminates(llm, init, resumes);
    }
  }
}
