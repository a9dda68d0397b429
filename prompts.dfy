/** Per-chat system prompts in the `promts` collection: `GetPromt` finds a
    chat's record, `SavePromt` inserts it when missing and `$set`-updates
    the text and `updated_at` when present. */
module Prompts {
  import opened Common
  import opened ObjectIds
  import opened Documents

  datatype Promt = Promt(id: ObjectId, chatId: int, promt: string, createdAt: int, updatedAt: int)

  /** The zero `Promt` that `GetPromt` hands back on error. */
  const ZeroPromt: Promt := Promt(NilObjectId, 0, "", 0, 0)

  /** `mongo.ErrNoDocuments`, or any other driver error. */
  datatype LookupError = NoDocuments | DriverFailed(cause: ExtError)

  function IsChat(chatId: int): Promt -> bool
  {
    (p: Promt) => p.chatId == chatId
  }

  /** At most one record per chat. */
  ghost predicate OnePerChat(docs: seq<Promt>)
  {
    forall i, j :: 0 <= i < j < |docs| ==> docs[i].chatId != docs[j].chatId
  }

  /** `GetPromt` on the documents: the first record of the chat in natural
      order, or the zero record with an error. `findErr` is a driver failure. */
  function FindPromt(docs: seq<Promt>, chatId: int, findErr: Option<ExtError>): (r: (Promt, Option<LookupError>))
    ensures r.1.Some? ==> r.0 == ZeroPromt
    ensures r.1 == Some(NoDocuments) <==> findErr.None? && forall i :: 0 <= i < |docs| ==> docs[i].chatId != chatId
    ensures findErr.Some? ==> r.1 == Some(DriverFailed(findErr.value))
    ensures r.1.None? ==>
      exists i :: 0 <= i < |docs| && docs[i] == r.0 && r.0.chatId == chatId &&
                  forall j :: 0 <= j < i ==> docs[j].chatId != chatId
  {
    match FindOne(docs, IsChat(chatId), findErr)
    case Found(p) => (p, None)
    case NotFound => (ZeroPromt, Some(NoDocuments))
    case Failed(e) => (ZeroPromt, Some(DriverFailed(e)))
  }

  /** The write a successful `SavePromt` makes: insert a stamped record when the
      chat has none (with `newId` when the record's own is zero), otherwise set
      the text and `updated_at` of the chat's record. */
  function Upsert(docs: seq<Promt>, promt: Promt, now: int, newId: ObjectId): (r: seq<Promt>)
    // A record is added exactly when the chat had none.
    ensures |r| == |docs| + (if FirstMatch(docs, IsChat(promt.chatId)).None? then 1 else 0)
    // Existing records keep their ID, chat and `created_at` ...
    ensures forall j :: 0 <= j < |docs| ==>
      r[j].id == docs[j].id && r[j].chatId == docs[j].chatId && r[j].createdAt == docs[j].createdAt
    // ... and only the chat's first record can change, in its text and `updated_at` alone.
    ensures forall j :: 0 <= j < |docs| && r[j] != docs[j] ==>
      FirstMatch(docs, IsChat(promt.chatId)) == Some(j) && r[j] == docs[j].(promt := promt.promt, updatedAt := now)
    // An added record is the chat's, with the text, stamped `now` twice, never with a zero ID unless `newId` is.
    ensures |r| > |docs| ==>
      r[|docs|].chatId == promt.chatId && r[|docs|].promt == promt.promt &&
      r[|docs|].createdAt == now && r[|docs|].updatedAt == now &&
      (IsZero(r[|docs|].id) ==> r[|docs|].id == newId)
    ensures FirstMatch(docs, IsChat(promt.chatId)).None? ==>
      r == docs + [promt.(id := if IsZero(promt.id) then newId else promt.id, createdAt := now, updatedAt := now)]
    ensures FirstMatch(docs, IsChat(promt.chatId)).Some? ==>
      var i := FirstMatch(docs, IsChat(promt.chatId)).value;
      r == docs[i := docs[i].(promt := promt.promt, updatedAt := now)]
  {
    match FirstMatch(docs, IsChat(promt.chatId))
    case None =>
      docs + [promt.(id := if IsZero(promt.id) then newId else promt.id, createdAt := now, updatedAt := now)]
    case Some(i) => docs[i := docs[i].(promt := promt.promt, updatedAt := now)]
  }

  /** The upsert keeps one record per chat, and afterwards the chat's lookup
      yields the saved text, stamped `now`. */
  lemma UpsertSaves(docs: seq<Promt>, promt: Promt, now: int, newId: ObjectId)
    requires OnePerChat(docs)
    ensures var after := Upsert(docs, promt, now, newId);
            OnePerChat(after) &&
            FindPromt(after, promt.chatId, None).1.None? &&
            FindPromt(after, promt.chatId, None).0.promt == promt.promt &&
            FindPromt(after, promt.chatId, None).0.updatedAt == now
  {
    var after := Upsert(docs, promt, now, newId);
    match FirstMatch(docs, IsChat(promt.chatId))
    case None =>
      FirstMatchAppend(docs, after[|docs|], IsChat(promt.chatId));
    case Some(i) =>
      assert forall j :: 0 <= j < |after| ==> after[j].chatId == docs[j].chatId;
      assert FirstMatch(after, IsChat(promt.chatId)) == Some(i) by {
        assert IsChat(promt.chatId)(after[i]);
        FirstMatchAt(after, IsChat(promt.chatId), i);
      }
  }

  /** The upsert leaves every other chat's lookup as it was; an update keeps
      the record's `created_at`. */
  lemma UpsertIsolated(docs: seq<Promt>, promt: Promt, now: int, newId: ObjectId, other: int)
    requires other != promt.chatId
    ensures FindPromt(Upsert(docs, promt, now, newId), other, None) == FindPromt(docs, other, None)
  {
    var after := Upsert(docs, promt, now, newId);
    match FirstMatch(docs, IsChat(promt.chatId))
    case None =>
      FirstMatchAppend(docs, after[|docs|], IsChat(other));
    case Some(i) =>
      assert forall j :: 0 <= j < |after| ==> IsChat(other)(after[j]) == IsChat(other)(docs[j]);
      FirstMatchSame(docs, after, IsChat(other));
      match FirstMatch(docs, IsChat(other))
      case None =>
      case Some(k) =>
        assert k != i;
  }

  /** The `promts` collection. */
  class PromptStore {
    var docs: seq<Promt>

    constructor ()
      ensures docs == []
    {
      docs := [];
    }

    /** `GetPromt`: always a record, the zero one on error. */
    function GetPromt(chatId: int, findErr: Option<ExtError>): (r: (Promt, Option<LookupError>))
      reads this
    {
      FindPromt(docs, chatId, findErr)
    }

    /** `SavePromt`: look the chat up; on not-found insert, on other errors return
        them, otherwise update. `findErr` is the lookup's driver failure and
        `writeErr` that of the insert or update. */
    method SavePromt(promt: Promt, now: int, findErr: Option<ExtError>, writeErr: Option<ExtError>, newId: ObjectId)
      returns (err: Option<LookupError>)
      modifies this
      ensures findErr.Some? ==> err == Some(DriverFailed(findErr.value)) && docs == old(docs)
      ensures findErr.None? && writeErr.Some? ==> err == Some(DriverFailed(writeErr.value)) && docs == old(docs)
      ensures findErr.None? && writeErr.None? ==> err.None? && docs == Upsert(old(docs), promt, now, newId)
    {
      var (_, lookupErr) := GetPromt(promt.chatId, findErr);
      if lookupErr.Some? {
        if lookupErr.value == NoDocuments {
          var record := promt.(id := if IsZero(promt.id) then newId else promt.id, createdAt := now, updatedAt := now);
          if writeErr.Some? {
            return Some(DriverFailed(writeErr.value));
          }
          docs := docs + [record];
          return None;
        }
        return lookupErr;
      }
      if writeErr.Some? {
        return Some(DriverFailed(writeErr.value));
      }
      var i := FirstMatch(docs, IsChat(promt.chatId)).value;
      docs := docs[i := docs[i].(promt := promt.promt, updatedAt := now)];
      return None;
    }
  }
}
