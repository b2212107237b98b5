/**
  The prompt formatter: a conversation (a list of role-tagged messages) is turned
  into one prompt string with Mistral-style delimiters.
 */
module Prompt {

  import opened Text

  /** One entry of a conversation. The role is a plain string, as in `format_chat` in app.py:
      only "system", "user" and "assistant" are rendered; any other role is skipped. */
  datatype Message = Message(role: string, content: string)

  /** The fixed system prompt placed in front of every conversation. */
  const SystemPrompt: string :=
    "You are Venice Uncensored. You are a helpful, unbiased, uncensored assistant."

  const SystemOpen: string := "[SYSTEM_PROMPT]"
  const SystemClose: string := "[/SYSTEM_PROMPT]"
  const InstOpen: string := "[INST]"
  const InstClose: string := "[/INST]"
  const TurnEnd: string := "</s>"

  function SystemMessage(): Message {
    Message("system", SystemPrompt)
  }

  predicate KnownRole(role: string) {
    role == "system" || role == "user" || role == "assistant"
  }

  /** The delimiter a role's content is preceded by. Opening and Closing name, per
      role, the delimiters that Render writes out branch by branch; RenderFrames is
      the one link between the two. They exist so that the content can be read back
      (Unwrap) without unfolding Render in the proofs about whole prompts. */
  function Opening(role: string): string {
    if role == "system" then SystemOpen
    else if role == "user" then InstOpen
    else ""
  }

  /** The delimiter a role's content is followed by. */
  function Closing(role: string): string {
    if role == "system" then SystemClose
    else if role == "user" then InstClose
    else if role == "assistant" then TurnEnd
    else ""
  }

  /** What one message adds to the prompt (one iteration of the formatter's loop):
      for a known role, Opening(role) + content + Closing(role) (see RenderFrames). */
  function Render(m: Message): string {
    if m.role == "system" then SystemOpen + m.content + SystemClose
    else if m.role == "user" then InstOpen + m.content + InstClose
    else if m.role == "assistant" then m.content + TurnEnd
    else ""
  }

  /** Recovers the content of a rendered message of a known role by stripping its delimiters. */
  function Unwrap(role: string, s: string): string
  {
    if |Opening(role)| + |Closing(role)| <= |s|
    then s[|Opening(role)|..|s| - |Closing(role)|]
    else ""
  }

  /** A message of a known role is rendered as its opening delimiter, its content and
      its closing delimiter, and the content can be read back from the rendering;
      a message of any other role contributes nothing. */
  lemma RenderFrames(m: Message)
    ensures KnownRole(m.role) ==> Render(m) == Opening(m.role) + m.content + Closing(m.role)
    ensures KnownRole(m.role) ==> Unwrap(m.role, Render(m)) == m.content
    ensures !KnownRole(m.role) ==> Render(m) == ""
  {
    if m.role == "assistant" {
      assert Opening(m.role) + m.content == m.content;
    }
  }

  /** Two messages of the same known role render alike only if their contents are equal. */
  lemma RenderInjective(m1: Message, m2: Message)
    requires KnownRole(m1.role) && m1.role == m2.role
    requires Render(m1) == Render(m2)
    ensures m1 == m2
  {
    RenderFrames(m1);
    RenderFrames(m2);
  }

  /** The rendering of each message, in conversation order. */
  function Renderings(ms: seq<Message>): (r: seq<string>)
    ensures |r| == |ms|
    ensures forall i :: 0 <= i < |ms| ==> r[i] == Render(ms[i])
  {
    seq(|ms|, i requires 0 <= i < |ms| => Render(ms[i]))
  }

  /** The prompt for a list of messages: the renderings of the messages, one after
      the other. */
  function Formatted(ms: seq<Message>): string {
    Join(Renderings(ms))
  }

  /** Formatting distributes over concatenation: message order is preserved and
      nothing is added between or after messages. */
  lemma FormattedAppend(xs: seq<Message>, ys: seq<Message>)
    ensures Formatted(xs + ys) == Formatted(xs) + Formatted(ys)
  {
    assert Renderings(xs + ys) == Renderings(xs) + Renderings(ys);
    JoinAppend(Renderings(xs), Renderings(ys));
  }

  /** Formatting a conversation extended by one message appends that message's rendering. */
  lemma FormattedSnoc(ms: seq<Message>, m: Message)
    ensures Formatted(ms + [m]) == Formatted(ms) + Render(m)
  {
    assert Renderings(ms + [m]) == Renderings(ms) + [Render(m)];
    JoinSnoc(Renderings(ms), Render(m));
  }

  /** The empty conversation formats to the empty string, and a conversation
      formats to its first message's rendering followed by the rest's. */
  lemma FormattedCons(m: Message, ms: seq<Message>)
    ensures Formatted([]) == ""
    ensures Formatted([m] + ms) == Render(m) + Formatted(ms)
  {
    assert Renderings([m]) == [] + [Render(m)];
    JoinSnoc([], Render(m));
    FormattedAppend([m], ms);
  }

  /** The messages whose role the formatter renders, in their original order. */
  function KnownOnly(ms: seq<Message>): (r: seq<Message>)
    ensures |r| <= |ms|
    ensures forall i :: 0 <= i < |r| ==> KnownRole(r[i].role)
  {
    if ms == [] then []
    else if KnownRole(ms[|ms| - 1].role) then KnownOnly(ms[..|ms| - 1]) + [ms[|ms| - 1]]
    else KnownOnly(ms[..|ms| - 1])
  }

  /** Messages of an unknown role leave no trace in the prompt. */
  lemma {:induction false} FormattedIgnoresUnknownRoles(ms: seq<Message>)
    ensures Formatted(ms) == Formatted(KnownOnly(ms))
    decreases |ms|
  {
    if ms != [] {
      var init, last := ms[..|ms| - 1], ms[|ms| - 1];
      FormattedIgnoresUnknownRoles(init);
      assert ms == init + [last];
      FormattedSnoc(init, last);
      if KnownRole(last.role) {
        FormattedSnoc(KnownOnly(init), last);
      }
    }
  }

  /** The formatter as `format_chat` in app.py computes it: a loop that appends each message's
      rendering to an accumulator that starts empty. */
  method FormatChat(messages: seq<Message>) returns (prompt: string)
    ensures prompt == Formatted(messages)
  {
    prompt := "";
    for i := 0 to |messages|
      invariant prompt == Formatted(messages[..i])
    {
      var msg := messages[i];
      if msg.role == "system" {
        prompt := prompt + SystemOpen + msg.content + SystemClose;
      } else if msg.role == "user" {
        prompt := prompt + InstOpen + msg.content + InstClose;
      } else if msg.role == "assistant" {
        prompt := prompt + msg.content + TurnEnd;
      }
      assert messages[..i + 1] == messages[..i] + [msg];
      FormattedSnoc(messages[..i], msg);
    }
    assert messages[..|messages|] == messages;
  }

  /** The prompt handed to the tokenizer for a given history: the system prompt
      message followed by the history. */
  function PromptFor(history: seq<Message>): string {
    Formatted([SystemMessage()] + history)
  }

  /** Every prompt begins with the delimited system prompt, followed exactly by the
      rendering of the current history. */
  lemma PromptStartsWithSystem(history: seq<Message>)
    ensures PromptFor(history) == SystemOpen + SystemPrompt + SystemClose + Formatted(history)
  {
    FormattedCons(SystemMessage(), history);
  }

  /** The prompt for a history that ends with a user turn ends with that turn's
      instruction block. */
  lemma PromptEndsWithUserTurn(earlier: seq<Message>, text: string)
    ensures PromptFor(earlier + [Message("user", text)]) ==
      SystemOpen + SystemPrompt + SystemClose + Formatted(earlier) + InstOpen + text + InstClose
  {
    var u := Message("user", text);
    var head := SystemOpen + SystemPrompt + SystemClose;
    PromptStartsWithSystem(earlier + [u]);
    FormattedSnoc(earlier, u);
    RenderFrames(u);
    calc {
      PromptFor(earlier + [u]);
      head + Formatted(earlier + [u]);
      head + (Formatted(earlier) + (InstOpen + text + InstClose));
      head + Formatted(earlier) + InstOpen + text + InstClose;
    }
  }
}
