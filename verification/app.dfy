/** The Streamlit app's session: the fields `stage`, `topic`, `messages` and
    `summarized` of `st.session_state`, and the three events that change them —
    submitting a topic on the input page, the summarizing page running its
    stream to the end, and sending a follow-up question on the chat page.
    Rendering is not modelled. Both the summary and every follow-up answer come
    from a full run of the pipeline, with the topic or the question as request.
    Such a run can raise: on an empty corpus, which the model derives, or in a
    collaborator (a failed request, an error in the middle of the stream), which
    is a parameter of the page's method. The script then stops where it is. */
module App {
  import opened Seqs
  import opened Text
  import opened Prompt
  import Pipeline

  /** The page the app shows; it can only move forward: input, summarizing, chat. */
  datatype Stage = Input | Summarizing | Chat

  /** The task a follow-up question is answered with. */
  const FollowUpTask: string := "Answer the question using the context."

  datatype SessionState = SessionState(stage: Stage, topic: string, messages: seq<Message>, summarized: bool)

  /** The session state set up on first load. */
  const InitialState: SessionState := SessionState(Input, "", [], false)

  datatype Event =
    | SubmitTopic(topicInput: string)                    // "Fetch & Summarize" on the input page
    | SummaryStreamed(pieces: seq<string>)               // the summarizing page, stream read to the end
    | FollowUpSent(question: string, pieces: seq<string>) // "Send" on the chat page
    | FollowUpFailed(question: string)                    // "Send", and the answer's stream raises

  function Rank(stage: Stage): nat
  {
    match stage
    case Input => 0
    case Summarizing => 1
    case Chat => 2
  }

  /** The effect of one event; an event on a page other than its own changes nothing.
      A follow-up is blank when stripping leaves nothing of it, that is when it
      is whitespace only (`Text.StripEmptyIff`).
      Once in the chat stage, the session stays there with the same topic, and the
      history is only ever extended. */
  function Step(s: SessionState, e: Event): (r: SessionState)
    ensures s.stage == Chat ==> r.stage == Chat && r.topic == s.topic && s.messages <= r.messages
  {
    match e
    case SubmitTopic(topicInput) =>
      if s.stage == Input then s.(topic := Strip(topicInput), stage := Summarizing) else s
    case SummaryStreamed(pieces) =>
      if s.stage == Summarizing then
        s.(messages := [Message(UserRole, s.topic), Message(AssistantRole, Flatten(pieces))],
           summarized := true,
           stage := Chat)
      else s
    case FollowUpSent(question, pieces) =>
      if s.stage == Chat && !AllSpace(question) then
        s.(messages := s.messages + [Message(UserRole, question), Message(AssistantRole, Flatten(pieces))])
      else s
    case FollowUpFailed(question) =>
      // the question was appended before the stream raised
      if s.stage == Chat && !AllSpace(question) then
        s.(messages := s.messages + [Message(UserRole, question)])
      else s
  }

  /** The state after a sequence of events. */
  function Run(s: SessionState, events: seq<Event>): SessionState
    decreases |events|
  {
    if events == [] then s else Run(Step(s, events[0]), events[1..])
  }

  /** Roles alternate user, assistant, user, ... from the first message on. */
  predicate Alternating(messages: seq<Message>)
  {
    forall i :: 0 <= i < |messages| ==>
      messages[i].role == (if i % 2 == 0 then UserRole else AssistantRole)
  }

  /** Every message is a user or an assistant message, and every assistant message
      but the first answers the user message right before it. */
  predicate AnswersFollowQuestions(messages: seq<Message>)
  {
    && (forall i :: 0 <= i < |messages| ==>
          messages[i].role == UserRole || messages[i].role == AssistantRole)
    && (forall i :: 0 < i < |messages| && messages[i].role == AssistantRole ==>
          messages[i - 1].role == UserRole)
  }

  /** What holds of every state the app can reach: `summarized` is set exactly in
      the chat stage; the topic is still "" on the input page; there are no
      messages before the chat stage; in the chat stage the history opens with
      the topic and its summary, and every later answer follows a question. A
      question whose answer's stream raised stays without an answer. */
  predicate Inv(s: SessionState)
  {
    && (s.summarized <==> s.stage == Chat)
    && (s.stage == Input ==> s.topic == "")
    && (s.stage != Chat ==> s.messages == [])
    && (s.stage == Chat ==>
          && |s.messages| >= 2
          && s.messages[0] == Message(UserRole, s.topic)
          && s.messages[1].role == AssistantRole
          && AnswersFollowQuestions(s.messages))
  }

  /** The history is whole user/assistant turns: what holds as long as every
      stream reaches its end. */
  predicate Complete(s: SessionState)
  {
    s.stage == Chat ==> |s.messages| % 2 == 0 && Alternating(s.messages)
  }

  lemma InitialStateValid()
    ensures Inv(InitialState) && Complete(InitialState)
  {
  }

  /** A follow-up that strips to "" is rejected and changes nothing. */
  lemma BlankFollowUpIgnored(s: SessionState, question: string, pieces: seq<string>)
    requires Strip(question) == ""
    ensures Step(s, FollowUpSent(question, pieces)) == s
  {
    StripEmptyIff(question);
  }

  /** Any other follow-up in the chat stage adds exactly two messages at the end —
      the question as typed, unstripped, then the accumulated answer — and keeps
      every earlier message, the stage and the topic. */
  lemma FollowUpAppendsTurn(s: SessionState, question: string, pieces: seq<string>)
    requires s.stage == Chat && Strip(question) != ""
    ensures var t := Step(s, FollowUpSent(question, pieces));
      && |t.messages| == |s.messages| + 2
      && t.messages[..|s.messages|] == s.messages
      && t.messages[|s.messages|] == Message(UserRole, question)
      && t.messages[|s.messages| + 1] == Message(AssistantRole, Flatten(pieces))
      && t.stage == Chat && t.topic == s.topic && t.summarized == s.summarized
  {
    StripEmptyIff(question);
  }

  /** Appending one user/assistant turn keeps the roles alternating. */
  lemma AppendTurnAlternates(messages: seq<Message>, question: string, answer: string)
    requires |messages| % 2 == 0 && Alternating(messages)
    ensures Alternating(messages + [Message(UserRole, question), Message(AssistantRole, answer)])
  {
    var n := |messages|;
    var t := messages + [Message(UserRole, question), Message(AssistantRole, answer)];
    forall i | 0 <= i < |t|
      ensures t[i].role == (if i % 2 == 0 then UserRole else AssistantRole)
    {
      if i < n {
        assert t[i] == messages[i];
      } else if i == n {
        assert i % 2 == 0;
      } else {
        assert i == n + 1 && i % 2 == 1;
      }
    }
  }

  lemma SubmitKeepsInv(s: SessionState, topicInput: string)
    requires Inv(s)
    ensures Inv(Step(s, SubmitTopic(topicInput)))
  {
  }

  lemma SummaryKeepsInv(s: SessionState, pieces: seq<string>)
    requires Inv(s)
    ensures Inv(Step(s, SummaryStreamed(pieces)))
  {
  }

  /** Appending a question, with or without its answer, keeps every answer
      after its question. */
  lemma AppendKeepsAnswers(messages: seq<Message>, tail: seq<Message>)
    requires |messages| > 0 && AnswersFollowQuestions(messages)
    requires |tail| > 0 && tail[0].role == UserRole && AnswersFollowQuestions(tail)
    ensures AnswersFollowQuestions(messages + tail)
  {
    var t := messages + tail;
    forall i | 0 < i < |t| && t[i].role == AssistantRole
      ensures t[i - 1].role == UserRole
    {
      if i < |messages| {
        assert t[i] == messages[i] && t[i - 1] == messages[i - 1];
      } else if i > |messages| {
        assert t[i] == tail[i - |messages|] && t[i - 1] == tail[i - 1 - |messages|];
      }
    }
  }

  lemma FollowUpKeepsInv(s: SessionState, question: string, pieces: seq<string>)
    requires Inv(s)
    ensures Inv(Step(s, FollowUpSent(question, pieces)))
  {
    if s.stage == Chat && !AllSpace(question) {
      AppendKeepsAnswers(s.messages, [Message(UserRole, question), Message(AssistantRole, Flatten(pieces))]);
    }
  }

  lemma FailedFollowUpKeepsInv(s: SessionState, question: string)
    requires Inv(s)
    ensures Inv(Step(s, FollowUpFailed(question)))
  {
    if s.stage == Chat && !AllSpace(question) {
      AppendKeepsAnswers(s.messages, [Message(UserRole, question)]);
    }
  }

  /** Every event keeps the invariant. */
  lemma StepKeepsInv(s: SessionState, e: Event)
    requires Inv(s)
    ensures Inv(Step(s, e))
  {
    match e
    case SubmitTopic(topicInput) => SubmitKeepsInv(s, topicInput);
    case SummaryStreamed(pieces) => SummaryKeepsInv(s, pieces);
    case FollowUpSent(question, pieces) => FollowUpKeepsInv(s, question, pieces);
    case FollowUpFailed(question) => FailedFollowUpKeepsInv(s, question);
  }

  /** Every state reachable from a valid one keeps the invariant. */
  lemma {:induction false} RunKeepsInv(s: SessionState, events: seq<Event>)
    requires Inv(s)
    ensures Inv(Run(s, events))
    decreases |events|
  {
    if events != [] {
      StepKeepsInv(s, events[0]);
      RunKeepsInv(Step(s, events[0]), events[1..]);
    }
  }

  /** Every event but a failed follow-up keeps the history in whole turns. */
  lemma StepKeepsComplete(s: SessionState, e: Event)
    requires Complete(s) && !e.FollowUpFailed?
    ensures Complete(Step(s, e))
  {
    match e
    case SubmitTopic(_) =>
    case SummaryStreamed(pieces) =>
      if s.stage == Summarizing {
        AppendTurnAlternates([], s.topic, Flatten(pieces));
      }
    case FollowUpSent(question, pieces) =>
      if s.stage == Chat && !AllSpace(question) {
        AppendTurnAlternates(s.messages, question, Flatten(pieces));
      }
  }

  /** A session in which no stream raises keeps its history in whole
      user/assistant turns. */
  lemma {:induction false} RunKeepsComplete(s: SessionState, events: seq<Event>)
    requires Complete(s)
    requires forall i :: 0 <= i < |events| ==> !events[i].FollowUpFailed?
    ensures Complete(Run(s, events))
    decreases |events|
  {
    if events != [] {
      StepKeepsComplete(s, events[0]);
      RunKeepsComplete(Step(s, events[0]), events[1..]);
    }
  }

  /** A follow-up whose stream raises leaves its question unanswered at the end
      of the history, and the history is then no longer whole turns. */
  lemma FailedFollowUpLeavesQuestion(s: SessionState, question: string)
    requires s.stage == Chat && !AllSpace(question) && Complete(s)
    ensures Step(s, FollowUpFailed(question)).messages == s.messages + [Message(UserRole, question)]
    ensures !Complete(Step(s, FollowUpFailed(question)))
  {
    var t := Step(s, FollowUpFailed(question));
    assert t.messages == s.messages + [Message(UserRole, question)];
    assert |t.messages| % 2 == 1;
  }

  /** One event moves the stage at most one page forward: input to summarizing,
      summarizing to chat; never back. */
  lemma StepAdvancesStage(s: SessionState, e: Event)
    ensures Rank(s.stage) <= Rank(Step(s, e).stage) <= Rank(s.stage) + 1
  {
  }

  /** No sequence of events moves the stage back; in particular nothing leaves
      the chat stage, and the topic never changes once it is submitted. */
  lemma {:induction false} RunNeverGoesBack(s: SessionState, events: seq<Event>)
    ensures Rank(s.stage) <= Rank(Run(s, events).stage)
    ensures s.stage == Chat ==> Run(s, events).stage == Chat
    ensures s.stage != Input ==> Run(s, events).topic == s.topic
    decreases |events|
  {
    if events != [] {
      StepAdvancesStage(s, events[0]);
      RunNeverGoesBack(Step(s, events[0]), events[1..]);
    }
  }

  /** The `for chunk in stream: text += piece` loops of the summarizing and the chat
      pages: starting from "", the pieces appended in order. */
  method Accumulate(pieces: seq<string>) returns (text: string)
    ensures text == Flatten(pieces)
  {
    text := "";
    for i := 0 to |pieces|
      invariant text == Flatten(pieces[..i])
    {
      assert pieces[..i + 1][..i] == pieces[..i];
      text := text + pieces[i];
    }
    assert pieces[..|pieces|] == pieces;
  }

  /** The chat page's test `user_question.strip() == ""`: true exactly for a
      question that is whitespace only. */
  method IsBlank(question: string) returns (blank: bool)
    ensures blank <==> AllSpace(question)
  {
    blank := Strip(question) == "";
    StripEmptyIff(question);
  }

  /** One pipeline run read to its end: the streamed pieces of `run_pipeline`
      on `request` with `task`, accumulated; `None` when the run raises. */
  method StreamedAnswer<I, M, Q>(request: string, task: string, env: Pipeline.Env<I, M, Q>)
    returns (text: Pipeline.Option<string>)
    requires Pipeline.SearchInRange(env)
    ensures text.Some? <==> Pipeline.PipelineOutput(request, task, env).Some?
    ensures text.Some? ==> text.value == Flatten(Pipeline.PipelineOutput(request, task, env).value)
  {
    var stream, _ := Pipeline.RunPipeline(request, task, env);
    if stream.Some? {
      var accumulated := Accumulate(stream.value);
      text := Pipeline.Some(accumulated);
    } else {
      text := Pipeline.None;
    }
  }

  /** Whether the run of a page reaches the end of its stream: none of the
      collaborators raises (`streamCompletes`) and the pipeline itself does not
      raise on an empty corpus. */
  ghost predicate RunCompletes<I, M, Q>(request: string, task: string, env: Pipeline.Env<I, M, Q>,
                                        streamCompletes: bool)
    requires Pipeline.SearchInRange(env)
  {
    streamCompletes && Pipeline.PipelineOutput(request, task, env).Some?
  }

  class Session {
    var stage: Stage
    var topic: string
    var messages: seq<Message>
    var summarized: bool

    function State(): SessionState
      reads this
    {
      SessionState(stage, topic, messages, summarized)
    }

    ghost predicate Valid()
      reads this
    {
      Inv(State())
    }

    /** First load: stage "input", topic "", no messages, not summarized. */
    constructor ()
      ensures State() == InitialState
      ensures Valid()
    {
      stage := Input;
      topic := "";
      messages := [];
      summarized := false;
    }

    /** "Fetch & Summarize" on the input page: store the stripped input as the
        topic and move to the summarizing stage. */
    method SubmitTopic(topicInput: string)
      requires Valid()
      modifies this
      ensures Valid()
      ensures State() == Step(old(State()), Event.SubmitTopic(topicInput))
      ensures old(stage) == Input ==> stage == Summarizing && topic == Strip(topicInput)
    {
      StepKeepsInv(State(), Event.SubmitTopic(topicInput));
      if stage == Input {
        topic := Strip(topicInput);
        stage := Summarizing;
      }
    }

    /** The summarizing page: run the pipeline on the topic with the default
        task, accumulate the streamed pieces into the summary, record the topic
        and the summary as the first two messages, and move to the chat stage.
        When the run raises the script stops before any assignment and the
        session is left as it was. */
    method Summarize<I, M, Q>(env: Pipeline.Env<I, M, Q>, streamCompletes: bool)
      requires Valid() && Pipeline.SearchInRange(env)
      modifies this
      ensures Valid()
      ensures State() == if RunCompletes(old(topic), Pipeline.DefaultTask, env, streamCompletes)
        then Step(old(State()), SummaryStreamed(Pipeline.PipelineOutput(old(topic), Pipeline.DefaultTask, env).value))
        else old(State())
      ensures old(stage) == Summarizing && RunCompletes(old(topic), Pipeline.DefaultTask, env, streamCompletes) ==>
        && stage == Chat && summarized
        && messages == [Message(UserRole, topic),
                        Message(AssistantRole, Flatten(Pipeline.PipelineOutput(topic, Pipeline.DefaultTask, env).value))]
    {
      ghost var output := Pipeline.PipelineOutput(topic, Pipeline.DefaultTask, env);
      if output.Some? {
        StepKeepsInv(State(), SummaryStreamed(output.value));
      }
      if stage == Summarizing && streamCompletes {
        var summaryText := StreamedAnswer(topic, Pipeline.DefaultTask, env);
        if summaryText.Some? {
          messages := [Message(UserRole, topic), Message(AssistantRole, summaryText.value)];
          summarized := true;
          stage := Chat;
        }
      }
    }

    /** "Send" on the chat page: a question that is blank after stripping is
        rejected; any other is appended as typed, the pipeline is run again on
        it with the follow-up task, and the accumulated answer is appended. When
        the run raises the question stays appended without an answer. */
    method SendFollowUp<I, M, Q>(userQuestion: string, env: Pipeline.Env<I, M, Q>, streamCompletes: bool)
      requires Valid() && Pipeline.SearchInRange(env)
      modifies this
      ensures Valid()
      ensures State() == Step(old(State()),
        if RunCompletes(userQuestion, FollowUpTask, env, streamCompletes)
        then FollowUpSent(userQuestion, Pipeline.PipelineOutput(userQuestion, FollowUpTask, env).value)
        else FollowUpFailed(userQuestion))
    {
      ghost var output := Pipeline.PipelineOutput(userQuestion, FollowUpTask, env);
      ghost var before := State();
      ghost var event := if RunCompletes(userQuestion, FollowUpTask, env, streamCompletes)
        then FollowUpSent(userQuestion, output.value) else FollowUpFailed(userQuestion);
      StepKeepsInv(before, event);
      if stage == Chat {
        var blank := IsBlank(userQuestion);
        if blank {
          // the page shows a warning; the session is unchanged
        } else {
          messages := messages + [Message(UserRole, userQuestion)];
          if streamCompletes {
            var answerText := StreamedAnswer(userQuestion, FollowUpTask, env);
            if answerText.Some? {
              messages := messages + [Message(AssistantRole, answerText.value)];
              assert messages == before.messages
                + [Message(UserRole, userQuestion), Message(AssistantRole, Flatten(output.value))];
            }
          }
        }
      }
    }
  }
}
