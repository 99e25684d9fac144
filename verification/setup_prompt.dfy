/** The prompt builder (`get_prompt`): a fixed system instruction followed by one
    user message that embeds the retrieved context and the task. */
module Prompt {
  import opened Text

  /** One chat message as the generation service receives it: `{"role", "content"}`. */
  datatype Message = Message(role: string, content: string)

  const SystemRole: string := "system"
  const UserRole: string := "user"
  const AssistantRole: string := "assistant"

  /** The line break and four-space indentation that the triple-quoted
      `SYSTEM_PROMPT` literal has before its first line and after its last. */
  const PromptIndent: string := "\n    "

  /** The instruction text itself, four lines joined by the literal's own line
      breaks and indentation. */
  const SystemPromptText: string :=
    "You are an expert news curator and writer."
    + " Based solely on the provided context, perform the specified task (e.g., summarization or question answering)."
    + PromptIndent + "Do not include any information not present in the context."
    + PromptIndent + "Write in an engaging, user-friendly news style: start with a clear, concise title, then present the content in short, factual paragraphs, maintaining a curious and informative tone."
    + PromptIndent + "Use factual language, avoid opinions, and maintain objectivity. Ensure clarity and cohesion throughout."

  /** The triple-quoted literal before `.strip()` is applied. */
  const RawSystemPrompt: string := PromptIndent + SystemPromptText + PromptIndent

  /** `SYSTEM_PROMPT`: the literal with `.strip()` applied. */
  const SystemPrompt: string := Strip(RawSystemPrompt)

  /** The fixed opening of the user message. */
  const ContextHeader: string := "Here is the context\U{2014}do not hallucinate.\n"

  /** `.strip()` removes exactly the literal's outer indentation, so the system
      content is the instruction text with nothing around it. */
  lemma SystemPromptIsText()
    ensures SystemPrompt == SystemPromptText
    ensures NoEdgeSpace(SystemPrompt)
  {
    assert AllSpace(PromptIndent);
    assert SystemPromptText[0] == "You are an expert news curator and writer."[0] == 'Y';
    assert SystemPromptText[|SystemPromptText| - 1] == '.';
    StripOfSurrounded(PromptIndent, SystemPromptText, PromptIndent);
  }

  /** `get_prompt(context, task)`: exactly two messages, the system instruction
      (whatever the arguments) and then the user message that holds the header,
      `context` and `task` verbatim on labelled lines. */
  function GetPrompt(context: string, task: string): (r: seq<Message>)
    ensures |r| == 2
    ensures r[0].role == "system" && r[1].role == "user"
    ensures r[0].content == SystemPromptText
    ensures r[1].content == ContextHeader + "context: " + context + "\ntask: " + task
  {
    // SystemPromptText is SYSTEM_PROMPT, the stripped literal: see SystemPromptIsText
    [ Message(SystemRole, SystemPromptText),
      Message(UserRole, ContextHeader + "context: " + context + "\ntask: " + task) ]
  }

  /** Context and task are inserted without escaping or truncation: both can be
      read back out of the user message at fixed offsets. */
  lemma UserContentRecoversArguments(context: string, task: string)
    ensures var u := GetPrompt(context, task)[1].content;
      var start := |ContextHeader| + |"context: "|;
      && |u| == start + |context| + |"\ntask: "| + |task|
      && u[start..start + |context|] == context
      && u[|u| - |task|..] == task
  {
    var head := ContextHeader + "context: ";
    var u := GetPrompt(context, task)[1].content;
    assert u == head + context + "\ntask: " + task;
    assert |head| == |ContextHeader| + |"context: "|;
    assert u[|head|..|head| + |context|] == context;
    assert u[|u| - |task|..] == task;
  }

  /** Two prompts with different contexts of the same length, or different tasks,
      differ in their user message: nothing of the arguments is dropped. */
  lemma GetPromptInjective(c1: string, t1: string, c2: string, t2: string)
    requires |c1| == |c2|
    requires GetPrompt(c1, t1) == GetPrompt(c2, t2)
    ensures c1 == c2 && t1 == t2
  {
    UserContentRecoversArguments(c1, t1);
    UserContentRecoversArguments(c2, t2);
  }
}
