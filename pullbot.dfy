/** The same daily commands backed by the `Pull` records. */
module PullBot {
  import opened Common
  import opened ObjectIds
  import opened Documents
  import opened Telegram
  import opened Calendar
  import opened PullDao
  import PollBot

  /** `boolFalse`: every poll is sent as non-anonymous. */
  const pullIsAnonymous := false

  datatype PullConfig = PullConfig(pullType: string, command: string, title: string, options: seq<string>)

  const Configs: seq<PullConfig> := [
    PullConfig("wank", "/wank", "✈️今天打飞机了吗?", ["Yes", "No"]),
    PullConfig("shit", "/shit", "💩今天有拉屎了吗?", ["Yes", "No"]),
    PullConfig("sex", "/sex", "💕今天做爱了吗?", ["Yes", "No"]),
    PullConfig("workout", "/workout", "💪今天健身了吗?", ["Yes", "No"])
  ]

  /** The record saved after the poll has been sent. */
  function NewPullRecord(config: PullConfig, date: string, chatId: int, sent: SentPoll): (p: Pull)
    ensures p.pullType == config.pullType && p.date == date && p.chatId == chatId
    ensures p.messageId == sent.messageId && IsZero(p.id)
  {
    Pull(NilObjectId, config.pullType, date, chatId, sent.messageId, 0, 0)
  }

  /** The handler of one command in the chat `chatId`: forward today's pull if
      it exists, otherwise send a fresh poll and record it. The outcomes of the
      lookup, of `SendPoll` and of the insert are parameters; the Bot API calls
      made are returned. */
  method NewPullHandler(config: PullConfig, store: PullStore, today: Date, chatId: int,
                        findErr: Option<ExtError>, sent: Result<SentPoll, ExtError>,
                        now: int, insertErr: Option<ExtError>, generatedId: ObjectId)
    returns (calls: seq<BotCall>)
    modifies store
    ensures var date := LayoutDate(today);
            var found := old(store.GetPullByTypeAndDate(config.pullType, date, findErr));
            (found.Failed? ==> calls == [] && store.docs == old(store.docs)) &&
            (found.Found? ==>
               store.docs == old(store.docs) &&
               calls == if found.value.messageId != 0
                        then [ForwardMessage(chatId, found.value.chatId, found.value.messageId)] else []) &&
            (found.NotFound? ==>
               |calls| == 1 && calls[0].SendPoll? && calls[0].chatId == chatId &&
               calls[0].question == config.title + " for " + date && !calls[0].isAnonymous &&
               |calls[0].options| == |config.options| &&
               (forall i :: 0 <= i < |config.options| ==> calls[0].options[i].text == config.options[i]) &&
               store.docs == old(store.docs) +
                 if sent.Ok? && insertErr.None?
                 then [Stamped(NewPullRecord(config, date, chatId, sent.value), now, generatedId)] else [])
  {
    var date := LayoutDate(today);
    var found := store.GetPullByTypeAndDate(config.pullType, date, findErr);
    if found.Failed? {
      return [];
    }
    if found.Found? {
      if found.value.messageId != 0 {
        return [ForwardMessage(chatId, found.value.chatId, found.value.messageId)];
      }
      return [];
    }
    var options := PollBot.BuildOptions(config.options);
    calls := [SendPoll(chatId, config.title + " for " + date, options, pullIsAnonymous)];
    if sent.Err? {
      return;
    }
    var newPull := NewPullRecord(config, date, chatId, sent.value);
    var _ := store.SavePull(newPull, now, insertErr, generatedId);
  }
}
