/** The `Poll` records of the daily polls: saved once per (type, date) by the
    poll handler, looked up by (type, date), and by Telegram poll ID when a
    vote arrives. */
module PollDao {
  import opened Common
  import opened ObjectIds
  import opened Documents
  import opened Telegram

  datatype Poll = Poll(id: ObjectId, pollType: string, date: string, chatId: int, messageId: int,
                       createdAt: int, updatedAt: int, pollId: string, poll: Option<TgPoll>)

  /** The stored value of a field as BSON sees it: the type is part of the value. */
  datatype BsonValue = BsonString(s: string) | BsonObjectId(oid: ObjectId)

  /** `poll_id` is a Go `string`, so it is stored as a BSON string. */
  function PollIdField(p: Poll): BsonValue
  {
    BsonString(p.pollId)
  }

  datatype PollError = InvalidPollId(hex: HexError) | DriverError(cause: ExtError)

  /** The filter `{type, date}`. */
  function TypeAndDate(pollType: string, date: string): Poll -> bool
  {
    (p: Poll) => p.pollType == pollType && p.date == date
  }

  /** The record `SavePoll` inserts: both stamps are `now`; a zero ID is
      replaced by the driver's `generatedId`. */
  function Stamped(p: Poll, now: int, generatedId: ObjectId): (r: Poll)
    ensures r.createdAt == now && r.updatedAt == now
    ensures r.id == if IsZero(p.id) then generatedId else p.id
    ensures r.(id := p.id, createdAt := p.createdAt, updatedAt := p.updatedAt) == p
  {
    p.(id := if IsZero(p.id) then generatedId else p.id, createdAt := now, updatedAt := now)
  }

  /** `GetPollByID` as written: the hex poll ID is parsed into an ObjectID and
      the `poll_id` field is compared with that ObjectID. */
  function GetPollByIdAsWritten(docs: seq<Poll>, pollId: string, findErr: Option<ExtError>): Lookup<Poll, PollError>
  {
    match FromHex(pollId)
    case Err(e) => Failed(InvalidPollId(e))
    case Ok(oid) =>
      match FindOne(docs, (p: Poll) => PollIdField(p) == BsonObjectId(oid), findErr)
      case Found(p) => Found(p)
      case NotFound => NotFound
      case Failed(e) => Failed(DriverError(e))
  }

  /** The filter never matches a stored record: a parse failure is an error,
      otherwise a working driver reports nothing found. No vote is ever linked
      to its poll. */
  lemma AsWrittenNeverFinds(docs: seq<Poll>, pollId: string, findErr: Option<ExtError>)
    ensures !GetPollByIdAsWritten(docs, pollId, findErr).Found?
    ensures findErr.None? && FromHex(pollId).Ok? ==> GetPollByIdAsWritten(docs, pollId, findErr) == NotFound
    ensures FromHex(pollId).Err? ==> GetPollByIdAsWritten(docs, pollId, findErr).Failed?
  {
  }

  /** A concrete instance: a poll saved with Telegram poll ID "5447" (a decimal
      string, as Telegram issues them) fails the hex parse, and a record whose
      ID is a valid hex string is still not found. */
  lemma AsWrittenCounterexample(p: Poll)
    requires p.pollId == "5447"
    ensures GetPollByIdAsWritten([p], p.pollId, None) == Failed(InvalidPollId(InvalidHex))
    ensures GetPollByIdAsWritten([p.(pollId := Hex(NilObjectId))], Hex(NilObjectId), None) == NotFound
  {
    HexRoundTrip(NilObjectId);
  }

  /** `GetPollByID` as intended: `poll_id` compared as the string it is stored as. */
  function GetPollById(docs: seq<Poll>, pollId: string, findErr: Option<ExtError>): (r: Lookup<Poll, PollError>)
    ensures findErr.Some? ==> r == Failed(DriverError(findErr.value))
    ensures findErr.None? ==> (r.NotFound? <==> forall j :: 0 <= j < |docs| ==> docs[j].pollId != pollId)
    ensures findErr.None? ==> !r.Failed?
    ensures r.Found? ==> r.value.pollId == pollId && r.value in docs
  {
    match FindOne(docs, (p: Poll) => PollIdField(p) == BsonString(pollId), findErr)
    case Found(p) => Found(p)
    case NotFound => NotFound
    case Failed(e) => Failed(DriverError(e))
  }

  /** Save-then-find: after `SavePoll` the vote lookup by its poll ID succeeds. */
  lemma SavedPollFoundById(docs: seq<Poll>, p: Poll)
    ensures GetPollById(docs + [p], p.pollId, None).Found?
  {
    FindOneAfterInsert(docs, p, (q: Poll) => PollIdField(q) == BsonString(p.pollId));
  }

  /** Save-then-find: after `SavePoll` the (type, date) lookup succeeds, from any
      chat (the filter has no chat component), and keeps returning the first
      record saved for that day. */
  lemma SavedPollFoundByTypeAndDate(docs: seq<Poll>, p: Poll)
    ensures FindOne(docs + [p], TypeAndDate(p.pollType, p.date), None).Found?
    ensures FindOne(docs, TypeAndDate(p.pollType, p.date), None).Found? ==>
      FindOne(docs + [p], TypeAndDate(p.pollType, p.date), None) == FindOne(docs, TypeAndDate(p.pollType, p.date), None)
  {
    FindOneAfterInsert(docs, p, TypeAndDate(p.pollType, p.date));
  }

  /** The (type, date) lookup reads no chat ID: records that differ only in
      their chat give the same answer. */
  lemma TypeAndDateIgnoresChat(docs: seq<Poll>, other: seq<Poll>, pollType: string, date: string)
    requires |docs| == |other|
    requires forall j :: 0 <= j < |docs| ==> other[j] == docs[j].(chatId := other[j].chatId)
    ensures FindOne(docs, TypeAndDate(pollType, date), None).Found? <==>
            FindOne(other, TypeAndDate(pollType, date), None).Found?
  {
    FirstMatchSame(docs, other, TypeAndDate(pollType, date));
  }

  /** The `polls` collection. */
  class PollStore {
    var docs: seq<Poll>

    constructor ()
      ensures docs == []
    {
      docs := [];
    }

    /** `SavePoll`: the poll is taken by value, so the stamps and the ID land in
        the stored record only; the caller's copy is not changed. */
    method SavePoll(poll: Poll, now: int, insertErr: Option<ExtError>, generatedId: ObjectId)
      returns (err: Option<ExtError>)
      modifies this
      ensures err == insertErr
      ensures insertErr.Some? ==> docs == old(docs)
      ensures insertErr.None? ==> docs == old(docs) + [Stamped(poll, now, generatedId)]
    {
      var local := poll.(createdAt := now, updatedAt := now);
      if insertErr.Some? {
        return insertErr;
      }
      local := local.(id := if IsZero(local.id) then generatedId else local.id);
      docs := docs + [local];
      return None;
    }

    /** `GetPollByTypeAndDate`: `Found(p)` is `(p, true, nil)`, `NotFound` is
        `(nil, false, nil)`, `Failed(e)` is `(nil, false, e)`. */
    function GetPollByTypeAndDate(pollType: string, date: string, findErr: Option<ExtError>): Lookup<Poll, ExtError>
      reads this
    {
      FindOne(docs, TypeAndDate(pollType, date), findErr)
    }

    /** `GetPollByID` as intended; the source's own lookup is `GetPollByIdAsWritten`. */
    function GetPollByIDIntended(pollId: string, findErr: Option<ExtError>): Lookup<Poll, PollError>
      reads this
    {
      GetPollById(docs, pollId, findErr)
    }
  }
}
