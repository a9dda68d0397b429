/** The parts of a Telegram update that the bot reads. */
module Telegram {
  import opened Common

  datatype User = User(id: int, username: string, firstName: string, lastName: string)

  datatype Chat = Chat(id: int)

  datatype TgMessage = TgMessage(id: int, chat: Chat, from: Option<User>, text: string)

  /** `user` is empty when a chat votes anonymously (`voterChat` is then set). */
  datatype PollAnswer = PollAnswer(pollId: string, voterChat: Option<Chat>, user: Option<User>, optionIds: seq<int>)

  datatype Update = Update(id: int, message: Option<TgMessage>, pollAnswer: Option<PollAnswer>)

  /** `models.Poll`, as far as the bot reads it. */
  datatype TgPoll = TgPoll(id: string, question: string, options: seq<string>, isAnonymous: bool)

  /** What `SendPoll` returns: the sent message's ID and its poll. */
  datatype SentPoll = SentPoll(messageId: int, poll: TgPoll)

  /** `models.InputPollOption`. */
  datatype InputPollOption = InputPollOption(text: string)

  /** The Bot API calls the handlers make. */
  datatype BotCall =
    | ForwardMessage(chatId: int, fromChatId: int, messageId: int)
    | SendPoll(chatId: int, question: string, options: seq<InputPollOption>, isAnonymous: bool)
    | SendMessage(chatId: int, text: string)
}
