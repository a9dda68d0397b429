/** The daily poll commands (/wank, /shit, /sex, /workout) backed by the
    `Poll` records, and the reaction to a vote on a "shit" poll. */
module PollBot {
  import opened Common
  import opened ObjectIds
  import opened Documents
  import opened Telegram
  import opened Calendar
  import opened PollDao

  const PollTypeShit := "shit"
  const PollTypeWank := "wank"
  const PollTypeSex := "sex"
  const PollTypeWorkout := "workout"
  const PullOptionYes := "Yes"
  const PullOptionNo := "No"

  /** `boolFalse`: every poll is sent as non-anonymous. */
  const pollIsAnonymous := false

  /** The name shown when the voter's name is empty. */
  const Anonymous := "匿名用户"

  datatype PollConfig = PollConfig(pollType: string, command: string, title: string, options: seq<string>)

  const Configs: seq<PollConfig> := [
    PollConfig(PollTypeWank, "/wank", "✈️今天打飞机了吗?", [PullOptionYes, PullOptionNo]),
    PollConfig(PollTypeShit, "/shit", "💩今天拉屎了吗?", [PullOptionYes, PullOptionNo]),
    PollConfig(PollTypeSex, "/sex", "💕今天做爱了吗?", [PullOptionYes, PullOptionNo]),
    PollConfig(PollTypeWorkout, "/workout", "💪今天健身了吗?", [PullOptionYes, PullOptionNo])
  ]

  /** The option list of `SendPoll`, one `InputPollOption` per configured text, in order. */
  method BuildOptions(texts: seq<string>) returns (options: seq<InputPollOption>)
    ensures |options| == |texts|
    ensures forall i :: 0 <= i < |texts| ==> options[i].text == texts[i]
  {
    options := [];
    for i := 0 to |texts|
      invariant |options| == i
      invariant forall j :: 0 <= j < i ==> options[j].text == texts[j]
    {
      options := options + [InputPollOption(texts[i])];
    }
  }

  /** The record saved after the poll has been sent. */
  function NewPollRecord(config: PollConfig, date: string, chatId: int, sent: SentPoll): (p: Poll)
    ensures p.pollType == config.pollType && p.date == date && p.chatId == chatId
    ensures p.messageId == sent.messageId && p.pollId == sent.poll.id && p.poll == Some(sent.poll)
    ensures IsZero(p.id)
  {
    Poll(NilObjectId, config.pollType, date, chatId, sent.messageId, 0, 0, sent.poll.id, Some(sent.poll))
  }

  /** The handler of one poll command, in the chat `chatId` of the command's
      message: forward today's poll if it exists, otherwise send a fresh poll
      and record it. `today` is the clock; `findErr`, `sent`, `insertErr` and
      `generatedId` are the outcomes of the lookup, of `SendPoll` and of the
      insert. The calls made to the Bot API are returned. */
  method NewPollHandler(config: PollConfig, store: PollStore, today: Date, chatId: int,
                        findErr: Option<ExtError>, sent: Result<SentPoll, ExtError>,
                        now: int, insertErr: Option<ExtError>, generatedId: ObjectId)
    returns (calls: seq<BotCall>)
    modifies store
    ensures var date := LayoutDate(today);
            var found := old(store.GetPollByTypeAndDate(config.pollType, date, findErr));
            (found.Failed? ==> calls == [] && store.docs == old(store.docs)) &&
            (found.Found? ==>
               store.docs == old(store.docs) &&
               calls == if found.value.messageId != 0
                        then [ForwardMessage(chatId, found.value.chatId, found.value.messageId)] else []) &&
            (found.NotFound? ==>
               |calls| == 1 && calls[0].SendPoll? && calls[0].chatId == chatId &&
               calls[0].question == config.title + " for " + date && !calls[0].isAnonymous &&
               |calls[0].options| == |config.options| &&
               (forall i :: 0 <= i < |config.options| ==> calls[0].options[i].text == config.options[i]) &&
               store.docs == old(store.docs) +
                 if sent.Ok? && insertErr.None?
                 then [Stamped(NewPollRecord(config, date, chatId, sent.value), now, generatedId)] else [])
  {
    var date := LayoutDate(today);
    var found := store.GetPollByTypeAndDate(config.pollType, date, findErr);
    if found.Failed? {
      return [];
    }
    if found.Found? {
      if found.value.messageId != 0 {
        return [ForwardMessage(chatId, found.value.chatId, found.value.messageId)];
      }
      return [];
    }
    var options := BuildOptions(config.options);
    calls := [SendPoll(chatId, config.title + " for " + date, options, pollIsAnonymous)];
    if sent.Err? {
      return;
    }
    var newPoll := NewPollRecord(config, date, chatId, sent.value);
    var _ := store.SavePoll(newPoll, now, insertErr, generatedId);
  }

  /** `fmt.Sprintf("%s  %s%s", Username, FirstName, LastName)`. */
  function UserName(u: User): (s: string)
    ensures |s| == |u.username| + 2 + |u.firstName| + |u.lastName|
    ensures s[|u.username|..|u.username| + 2] == "  "
  {
    u.username + "  " + u.firstName + u.lastName
  }

  /** The name used in a reply: the anonymous fallback applies to an empty name. */
  function ShownName(userName: string): (s: string)
    ensures s != ""
    ensures userName != "" ==> s == userName
  {
    if userName == "" then Anonymous else userName
  }

  /** The user name always holds two spaces, so the anonymous fallback never applies. */
  lemma AnonymousNeverShown(u: User)
    ensures ShownName(UserName(u)) == UserName(u) != Anonymous
  {
    var s := UserName(u);
    assert s[|u.username|] == ' ';
    assert forall i :: 0 <= i < |Anonymous| ==> Anonymous[i] != ' ';
  }

  /** The chat a vote reply goes to: the update's message chat, else the
      voter chat, else the chat the poll was sent in. */
  function VoteChat(update: Update, answer: PollAnswer, p: Poll): (c: int)
    ensures update.message.Some? ==> c == update.message.value.chat.id
    ensures update.message.None? && answer.voterChat.Some? ==> c == answer.voterChat.value.id
    ensures update.message.None? && answer.voterChat.None? ==> c == p.chatId
  {
    var c0 := p.chatId;
    var c1 := if answer.voterChat.Some? then answer.voterChat.value.id else c0;
    if update.message.Some? then update.message.value.chat.id else c1
  }

  function RetractionText(name: string): string
  {
    "🎉  " + name + " 撤回了个拉屎投票."
  }

  function CongratulationText(name: string): string
  {
    "🎉 恭喜 " + name + " 完成今日任务！💩\n祝您排便愉快，身体健康！"
  }

  /** What the vote handler does once the lookup is done. */
  datatype VoteOutcome =
    | LookupFailed(error: PollError)   // the lookup's error is logged, nothing is sent
    | NilUserDereference               // no user on the answer: `PollAnswer.User.Username` on nil
    | NilPollDereference               // nothing found: `poll.ChatID` on a nil poll
    | NoReply
    | Reply(chatId: int, text: string)

  /** `PollVoteHandler` for the poll answer `answer` of `update`, given the
      outcome of `GetPollByID(answer.pollId)`. The handler is only called for
      updates that carry a poll answer. The user name is formatted before
      the poll is read, so a missing user fails first. */
  function VoteReaction(update: Update, answer: PollAnswer, lookup: Lookup<Poll, PollError>): (r: VoteOutcome)
    requires update.pollAnswer == Some(answer)
    ensures lookup.Failed? <==> r.LookupFailed?
    ensures r == NilUserDereference <==> !lookup.Failed? && answer.user.None?
    ensures r == NilPollDereference <==> lookup.NotFound? && answer.user.Some?
    ensures r.Reply? ==>
      lookup.Found? && answer.user.Some? && lookup.value.pollType == PollTypeShit &&
      r.chatId == VoteChat(update, answer, lookup.value)
    ensures lookup.Found? && answer.user.Some? && lookup.value.pollType == PollTypeShit && answer.optionIds == [] ==>
      r == Reply(VoteChat(update, answer, lookup.value), RetractionText(UserName(answer.user.value)))
    ensures lookup.Found? && answer.user.Some? && lookup.value.pollType == PollTypeShit &&
            answer.optionIds != [] && answer.optionIds[0] == 0 ==>
      r == Reply(VoteChat(update, answer, lookup.value), CongratulationText(UserName(answer.user.value)))
    ensures lookup.Found? && answer.user.Some? &&
            (lookup.value.pollType != PollTypeShit || (answer.optionIds != [] && answer.optionIds[0] != 0)) ==>
      r == NoReply
  {
    if lookup.Failed? then LookupFailed(lookup.error)
    else if answer.user.None? then NilUserDereference
    else
      var userName := UserName(answer.user.value);
      match lookup
      case NotFound => NilPollDereference
      case Found(poll) =>
        var chatId := VoteChat(update, answer, poll);
        if poll.pollType != PollTypeShit then NoReply
        else if |answer.optionIds| == 0 then Reply(chatId, RetractionText(ShownName(userName)))
        else if answer.optionIds[0] == 0 then Reply(chatId, CongratulationText(ShownName(userName)))
        else NoReply
  }

  /** With the lookup as written, a vote never gets a reply: the lookup fails,
      or the handler dereferences a nil user or a nil poll. */
  lemma AsWrittenVoteNeverReplies(docs: seq<Poll>, update: Update, answer: PollAnswer, findErr: Option<ExtError>)
    requires update.pollAnswer == Some(answer)
    ensures var r := VoteReaction(update, answer, GetPollByIdAsWritten(docs, answer.pollId, findErr));
            r.LookupFailed? || r == NilUserDereference || r == NilPollDereference
  {
    AsWrittenNeverFinds(docs, answer.pollId, findErr);
  }

  /** With the intended lookup, a "Yes" vote on today's saved shit poll is
      congratulated in the chat the vote came from, unless the answer carries
      no user. */
  lemma SavedShitPollCongratulates(docs: seq<Poll>, p: Poll, update: Update, answer: PollAnswer)
    requires update.pollAnswer == Some(answer)
    requires p.pollType == PollTypeShit && answer.pollId == p.pollId
    requires forall j :: 0 <= j < |docs| ==> docs[j].pollId != p.pollId
    requires answer.optionIds == [0]
    ensures answer.user.None? ==>
            VoteReaction(update, answer, GetPollById(docs + [p], answer.pollId, None)) == NilUserDereference
    ensures answer.user.Some? ==>
            VoteReaction(update, answer, GetPollById(docs + [p], answer.pollId, None)) ==
            Reply(VoteChat(update, answer, p), CongratulationText(UserName(answer.user.value)))
  {
    var all := docs + [p];
    assert all[|docs|] == p;
    var found := GetPollById(all, answer.pollId, None);
    assert !found.NotFound?;
    assert found.Found? && found.value in all;
  }
}
