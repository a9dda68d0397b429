/** The text helpers of the chat handlers: the transcript handed to the
    language model (`prepareChatHistory`), the command arguments of /gpt and
    /ask, the default system prompt and the model list with its fallback. */
module ChatHistory {
  import opened Common
  import opened Telegram
  import opened Messages

  /** The speaker's name in the transcript: "@username", else the first name
      with the last name after a space, else "User". */
  function DisplayName(from: Option<User>): (name: string)
    ensures from.Some? && from.value.username != "" ==> name == "@" + from.value.username
    ensures from.Some? && from.value.username == "" && from.value.firstName != "" ==>
      name == from.value.firstName + (if from.value.lastName != "" then " " + from.value.lastName else "")
    ensures from.None? || (from.value.username == "" && from.value.firstName == "") ==> name == "User"
  {
    var name := "User";
    if from.None? then name
    else if from.value.username != "" then "@" + from.value.username
    else if from.value.firstName != "" then
      from.value.firstName + (if from.value.lastName != "" then " " + from.value.lastName else "")
    else name
  }

  /** The name is never empty, and a sender with a username is always named by it. */
  lemma DisplayNameShape(from: Option<User>)
    ensures DisplayName(from) != ""
    ensures from.Some? && from.value.username != "" ==>
      DisplayName(from)[0] == '@' && DisplayName(from)[1..] == from.value.username
  {
    if from.Some? && from.value.username != "" {
      assert DisplayName(from) == "@" + from.value.username;
    }
  }

  /** Senders with usernames get the same name in the transcript exactly when
      their usernames agree; the other name fields never matter for them. */
  lemma UsernamesDistinguish(a: User, b: User)
    requires a.username != "" && b.username != ""
    ensures DisplayName(Some(a)) == DisplayName(Some(b)) <==> a.username == b.username
  {
    DisplayNameShape(Some(a));
    DisplayNameShape(Some(b));
  }

  /** A message enters the transcript when its update carries a message with text. */
  predicate HasText(m: Message)
  {
    m.update.Some? && m.update.value.message.Some? && m.update.value.message.value.text != ""
  }

  /** All considered messages carry an update (`messages[i].Update.Message` is read). */
  predicate AllHaveUpdates(ms: seq<Message>)
  {
    forall i :: 0 <= i < |ms| ==> ms[i].update.Some?
  }

  /** What one message contributes: `"%s: %s\n"` of name and text, or nothing. */
  function Line(m: Message): string
  {
    if HasText(m) then
      var msg := m.update.value.message.value;
      DisplayName(msg.from) + ": " + msg.text + "\n"
    else ""
  }

  /** The strings `f` gives the elements of `xs`, one after the other. */
  function ConcatMap<T>(xs: seq<T>, f: T -> string): string
  {
    if xs == [] then "" else ConcatMap(xs[..|xs| - 1], f) + f(xs[|xs| - 1])
  }

  /** The lines of a run of messages, in order. */
  function Render(ms: seq<Message>): string
  {
    ConcatMap(ms, Line)
  }

  /** The first considered index: only the last `maxMessages` messages are read. */
  function StartIndex(n: nat, maxMessages: nat): nat
  {
    if n > maxMessages then n - maxMessages else 0
  }

  /** The messages the loop reads. */
  function Considered(ms: seq<Message>, maxMessages: nat): (r: seq<Message>)
    ensures |ms| <= maxMessages ==> r == ms
    ensures maxMessages < |ms| ==> r == ms[|ms| - maxMessages..] && |r| == maxMessages
  {
    ms[StartIndex(|ms|, maxMessages)..]
  }

  lemma ConcatAssoc(a: string, b: string, c: string)
    ensures a + b + c == a + (b + c)
  {
  }

  /** One more element read extends the output by that element's string. */
  lemma ConcatMapStep<T>(xs: seq<T>, lo: nat, j: nat, f: T -> string)
    requires lo <= j < |xs|
    ensures ConcatMap(xs[lo..j + 1], f) == ConcatMap(xs[lo..j], f) + f(xs[j])
  {
    assert xs[lo..j + 1][..j - lo] == xs[lo..j];
  }

  /** The loop body: the `"%s: %s\n"` of a message with text, written after `s`. */
  method WriteLine(s: string, m: Message) returns (r: string)
    requires m.update.Some?
    ensures r == s + Line(m)
  {
    r := s;
    if m.update.value.message.Some? && m.update.value.message.value.text != "" {
      var name := DisplayName(m.update.value.message.value.from);
      r := r + (name + ": " + m.update.value.message.value.text + "\n");
    }
  }

  /** The considered messages are those from `StartIndex` on. */
  lemma ConsideredFrom(messages: seq<Message>, maxMessages: nat)
    ensures Considered(messages, maxMessages) == messages[StartIndex(|messages|, maxMessages)..]
  {
  }

  /** Writing the line of `messages[i]` after the transcript of `messages[lo..i]`. */
  lemma TranscriptStep(messages: seq<Message>, lo: nat, i: nat, prefix: string)
    requires lo <= i < |messages|
    ensures prefix + Render(messages[lo..i]) + Line(messages[i]) == prefix + Render(messages[lo..i + 1])
  {
    ConcatMapStep(messages, lo, i, Line);
    ConcatAssoc(prefix, Render(messages[lo..i]), Line(messages[i]));
  }

  /** One turn of the loop: the transcript so far, extended by the line of `messages[i]`. */
  method WriteNext(messages: seq<Message>, lo: nat, i: nat, prefix: string, s: string) returns (r: string)
    requires lo <= i < |messages| && AllHaveUpdates(messages[lo..])
    requires s == prefix + Render(messages[lo..i])
    ensures r == prefix + Render(messages[lo..i + 1])
  {
    assert messages[i] == messages[lo..][i - lo];
    TranscriptStep(messages, lo, i, prefix);
    r := WriteLine(s, messages[i]);
  }

  /** `prepareChatHistory`: `prefix`, then one line per considered message with
      text, in order. A nil `Update` on a considered message is a nil
      dereference in the source, hence the precondition. */
  method PrepareChatHistory(messages: seq<Message>, maxMessages: nat, prefix: string) returns (s: string)
    requires AllHaveUpdates(Considered(messages, maxMessages))
    ensures s == prefix + Render(Considered(messages, maxMessages))
  {
    s := prefix;
    var startIdx := 0;
    if |messages| > maxMessages {
      startIdx := |messages| - maxMessages;
    }
    ConsideredFrom(messages, maxMessages);
    assert startIdx == StartIndex(|messages|, maxMessages);
    var i := startIdx;
    assert messages[startIdx..i] == [];
    while i < |messages|
      invariant startIdx <= i <= |messages|
      invariant s == prefix + Render(messages[startIdx..i])
    {
      s := WriteNext(messages, startIdx, i, prefix, s);
      i := i + 1;
    }
    assert messages[startIdx..] == messages[startIdx..i];
  }

  /** The transcript of two runs is the transcript of the first followed by that of the second. */
  lemma {:induction false} ConcatMapAppend<T>(a: seq<T>, b: seq<T>, f: T -> string)
    ensures ConcatMap(a + b, f) == ConcatMap(a, f) + ConcatMap(b, f)
    decreases |b|
  {
    if b == [] {
      assert a + b == a;
    } else {
      var init := b[..|b| - 1];
      assert (a + b)[..|a + b| - 1] == a + init;
      ConcatMapAppend(a, init, f);
    }
  }

  /** Nothing but the prefix comes out exactly when no considered message has text. */
  lemma {:induction false} RenderEmptyIff(ms: seq<Message>)
    ensures Render(ms) == "" <==> forall i :: 0 <= i < |ms| ==> !HasText(ms[i])
  {
    if ms != [] {
      var init := ms[..|ms| - 1];
      RenderEmptyIff(init);
      assert forall i :: 0 <= i < |init| ==> init[i] == ms[i];
      if HasText(ms[|ms| - 1]) {
        assert |Line(ms[|ms| - 1])| > 0;
      }
    }
  }

  /** Messages before the window never show: prepending any run of older
      messages leaves the transcript of the last `maxMessages` unchanged. */
  lemma OlderMessagesIgnored(older: seq<Message>, recent: seq<Message>, maxMessages: nat)
    requires maxMessages == |recent|
    ensures Considered(older + recent, maxMessages) == recent
  {
    var all := older + recent;
    if |all| > maxMessages {
      assert all[|all| - maxMessages..] == recent;
    } else {
      assert older == [];
      assert all == recent;
    }
  }

  /** /gpt argument: the text after a leading "/gpt ", else after "gpt ", else all of it. */
  function GptArgument(text: string): (r: string)
    ensures |r| <= |text| && text[|text| - |r|..] == r
    ensures "/gpt " <= text ==> r == text[5..]
    ensures !("/gpt " <= text) && "gpt " <= text ==> r == text[4..]
    ensures !("/gpt " <= text) && !("gpt " <= text) ==> r == text
  {
    if "/gpt " <= text then text[|"/gpt "|..]
    else if "gpt " <= text then text[|"gpt "|..]
    else text
  }

  lemma GptArgumentOf(q: string)
    ensures GptArgument("/gpt " + q) == q && GptArgument("gpt " + q) == q
  {
    assert "/gpt " <= "/gpt " + q;
    assert ("/gpt " + q)[5..] == q;
    assert ("gpt " + q)[0] == 'g';
    assert "gpt " <= "gpt " + q;
    assert ("gpt " + q)[4..] == q;
  }

  /** The default system prompt of the /gpt handler. */
  function SystemPrompt(stored: string): (r: string)
    ensures r != ""
    ensures stored != "" ==> r == stored
  {
    if stored == "" then "You are a helpful assistant." else stored
  }

  /** /ask question: the text after a leading "/ask ", else nothing. */
  function AskQuestion(text: string): (r: string)
    ensures |r| <= |text| && text[|text| - |r|..] == r
    ensures "/ask " <= text ==> r == text[5..]
    ensures !("/ask " <= text) ==> r == ""
  {
    if "/ask " <= text then text[|"/ask "|..] else ""
  }

  const AskUsage := "Please provide a question after the /ask command. For example: /ask What did we decide about the project deadline?"

  /** The first effect of /ask: the usage reply, or searching the chat's history. */
  datatype AskStep = Usage(text: string) | Search(question: string)

  function AskFirstStep(text: string): (r: AskStep)
    ensures r.Usage? <==> AskQuestion(text) == ""
    ensures r.Usage? ==> r.text == AskUsage
    ensures r.Search? ==> r.question == AskQuestion(text) && "/ask " <= text && r.question != ""
  {
    var question := AskQuestion(text);
    if question == "" then Usage(AskUsage) else Search(question)
  }

  /** "/ask " followed by a non-empty question searches for that question;
      anything not starting with "/ask " gets the usage reply. */
  lemma AskRoundTrip(q: string, other: string)
    requires q != "" && !("/ask " <= other)
    ensures AskFirstStep("/ask " + q) == Search(q)
    ensures AskFirstStep(other) == Usage(AskUsage)
  {
    assert "/ask " <= "/ask " + q;
    assert ("/ask " + q)[5..] == q;
  }

  /** The models tried in turn: the configured summary models, or the default model alone. */
  function ModelsFor(summaryModels: seq<string>, defaultModel: string): (r: seq<string>)
    ensures |r| >= 1
    ensures summaryModels == [] ==> r == [defaultModel]
    ensures summaryModels != [] ==> r == summaryModels
  {
    if |summaryModels| == 0 then [defaultModel] else summaryModels
  }

  /** The default model is tried exactly when no summary models are configured
      or it is one of them; a configured list is tried as is. */
  lemma DefaultModelTried(summaryModels: seq<string>, defaultModel: string, m: string)
    ensures defaultModel in ModelsFor(summaryModels, defaultModel) <==> summaryModels == [] || defaultModel in summaryModels
    ensures summaryModels != [] ==> (m in ModelsFor(summaryModels, defaultModel) <==> m in summaryModels)
  {
  }
}
