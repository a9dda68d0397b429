/** The `Pull` records of the daily polls in the `pulls` collection, keyed by
    (type, date). */
module PullDao {
  import opened Common
  import opened ObjectIds
  import opened Documents

  datatype Pull = Pull(id: ObjectId, pullType: string, date: string, chatId: int, messageId: int,
                       createdAt: int, updatedAt: int)

  /** The filter `{type, date}`. */
  function TypeAndDate(pullType: string, date: string): Pull -> bool
  {
    (p: Pull) => p.pullType == pullType && p.date == date
  }

  /** The record `SavePull` inserts: both stamps are `now`; a zero ID is
      replaced by the driver's `generatedId`. */
  function Stamped(p: Pull, now: int, generatedId: ObjectId): (r: Pull)
    ensures r.createdAt == now && r.updatedAt == now
    ensures r.id == if IsZero(p.id) then generatedId else p.id
    ensures r.(id := p.id, createdAt := p.createdAt, updatedAt := p.updatedAt) == p
  {
    p.(id := if IsZero(p.id) then generatedId else p.id, createdAt := now, updatedAt := now)
  }

  /** Save-then-find: after `SavePull` the (type, date) lookup succeeds from any
      chat and keeps returning the first record saved for that day. */
  lemma SavedPullFound(docs: seq<Pull>, p: Pull)
    ensures FindOne(docs + [p], TypeAndDate(p.pullType, p.date), None).Found?
    ensures FindOne(docs, TypeAndDate(p.pullType, p.date), None).Found? ==>
      FindOne(docs + [p], TypeAndDate(p.pullType, p.date), None) == FindOne(docs, TypeAndDate(p.pullType, p.date), None)
  {
    FindOneAfterInsert(docs, p, TypeAndDate(p.pullType, p.date));
  }

  /** The (type, date) lookup reads no chat ID. */
  lemma TypeAndDateIgnoresChat(docs: seq<Pull>, other: seq<Pull>, pullType: string, date: string)
    requires |docs| == |other|
    requires forall j :: 0 <= j < |docs| ==> other[j] == docs[j].(chatId := other[j].chatId)
    ensures FindOne(docs, TypeAndDate(pullType, date), None).Found? <==>
            FindOne(other, TypeAndDate(pullType, date), None).Found?
  {
    FirstMatchSame(docs, other, TypeAndDate(pullType, date));
  }

  /** The `pulls` collection. */
  class PullStore {
    var docs: seq<Pull>

    constructor ()
      ensures docs == []
    {
      docs := [];
    }

    /** `SavePull`: the pull is taken by value; an insert error is returned as is. */
    method SavePull(pull: Pull, now: int, insertErr: Option<ExtError>, generatedId: ObjectId)
      returns (err: Option<ExtError>)
      modifies this
      ensures err == insertErr
      ensures insertErr.Some? ==> docs == old(docs)
      ensures insertErr.None? ==> docs == old(docs) + [Stamped(pull, now, generatedId)]
    {
      var local := pull.(createdAt := now, updatedAt := now);
      if insertErr.Some? {
        return insertErr;
      }
      local := local.(id := if IsZero(local.id) then generatedId else local.id);
      docs := docs + [local];
      return None;
    }

    /** `GetPullByTypeAndDate`: `Found(p)` is `(p, true, nil)`, `NotFound` is
        `(nil, false, nil)`, `Failed(e)` is `(nil, false, e)`. */
    function GetPullByTypeAndDate(pullType: string, date: string, findErr: Option<ExtError>): Lookup<Pull, ExtError>
      reads this
    {
      FindOne(docs, TypeAndDate(pullType, date), findErr)
    }
  }
}
