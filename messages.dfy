/** The chat-message archive (`MessageStorage`) and its two backends: a
    MongoDB collection of documents and an S3 bucket of one JSON object per
    message under a per-chat, per-day key prefix. */
module Messages {
  import opened Common
  import opened ObjectIds
  import opened Telegram
  import opened Calendar
  import opened MessageKeys
  import opened Sorting
  import opened Documents

  /** One stored message. `createdAt` and `updatedAt` are Unix seconds. */
  datatype Message = Message(id: ObjectId, update: Option<Update>, chatId: int, createdAt: int, updatedAt: int)

  function CreatedAt(m: Message): int { m.createdAt }

  /** The caller's `*Message`, which both backends update in place. */
  class MessageRecord {
    var id: ObjectId
    var update: Option<Update>
    var chatId: int
    var createdAt: int
    var updatedAt: int

    /** A fresh record around an update, every other field at its zero value. */
    constructor (update: Option<Update>)
      ensures this.update == update && IsZero(id) && chatId == 0 && createdAt == 0 && updatedAt == 0
    {
      this.id := NilObjectId;
      this.update := update;
      this.chatId := 0;
      this.createdAt := 0;
      this.updatedAt := 0;
    }

    function Value(): Message
      reads this
    {
      Message(id, update, chatId, createdAt, updatedAt)
    }

    /** What both backends do first: both times become `now`, and the chat ID
        is taken from the update when it carries a message. */
    method Stamp(now: int)
      modifies this
      ensures createdAt == now && updatedAt == now
      ensures update == old(update) && id == old(id)
      ensures chatId == SavedChatId(old(update), old(chatId))
    {
      createdAt := now;
      updatedAt := now;
      if CarriesChat(update) {
        chatId := ChatOf(update);
      }
    }
  }

  /** Both backends take the chat ID from the update when it carries a message. */
  predicate CarriesChat(u: Option<Update>)
  {
    u.Some? && u.value.message.Some?
  }

  function ChatOf(u: Option<Update>): int
    requires CarriesChat(u)
  {
    u.value.message.value.chat.id
  }

  /** The chat ID a save leaves in the record. */
  function SavedChatId(u: Option<Update>, old_chat: int): (c: int)
    ensures CarriesChat(u) ==> c == ChatOf(u)
    ensures !CarriesChat(u) ==> c == old_chat
  {
    if CarriesChat(u) then ChatOf(u) else old_chat
  }

  /** The chat's documents in the collection's natural (insertion) order. */
  function ByChat(docs: seq<Message>, chatId: int): seq<Message>
  {
    if docs == [] then []
    else
      var rest := ByChat(docs[..|docs| - 1], chatId);
      if docs[|docs| - 1].chatId == chatId then rest + [docs[|docs| - 1]] else rest
  }

  /** `ByChat` keeps exactly the chat's documents, each as often as it is stored. */
  lemma {:induction false} ByChatContents(docs: seq<Message>, chatId: int, m: Message)
    ensures multiset(ByChat(docs, chatId))[m] == if m.chatId == chatId then multiset(docs)[m] else 0
  {
    if docs != [] {
      var init := docs[..|docs| - 1];
      assert docs == init + [docs[|docs| - 1]];
      ByChatContents(init, chatId, m);
    }
  }

  /** Every document `ByChat` returns belongs to the chat. */
  lemma {:induction false} ByChatOnlyChat(docs: seq<Message>, chatId: int)
    ensures forall i :: 0 <= i < |ByChat(docs, chatId)| ==> ByChat(docs, chatId)[i].chatId == chatId
  {
    if docs != [] {
      ByChatOnlyChat(docs[..|docs| - 1], chatId);
    }
  }

  /** Filtering distributes over appending documents, so later inserts come later. */
  lemma {:induction false} ByChatAppend(docs: seq<Message>, more: seq<Message>, chatId: int)
    ensures ByChat(docs + more, chatId) == ByChat(docs, chatId) + ByChat(more, chatId)
    decreases |more|
  {
    if more == [] {
      assert docs + more == docs;
    } else {
      var init := more[..|more| - 1];
      assert (docs + more)[..|docs + more| - 1] == docs + init;
      ByChatAppend(docs, init, chatId);
    }
  }

  /** Some document of the chat, at a position the driver fails to decode. */
  predicate Undecodable(docs: seq<Message>, chatId: int, decodeFails: map<nat, ExtError>)
  {
    exists p :: p in decodeFails && p < |docs| && docs[p].chatId == chatId
  }

  /** `MongoDBStorage`: the `messages` collection. */
  class MongoDBStorage {
    var docs: seq<Message>

    constructor ()
      ensures docs == []
    {
      docs := [];
    }

    /** `SaveMessage`: stamps both times with `now`, takes the chat ID from the
        update, inserts. `insertErr` is the driver's outcome; `generatedId` the
        `_id` it assigns when the record's is zero (`omitempty`). */
    method SaveMessage(msg: MessageRecord, now: int, insertErr: Option<ExtError>, generatedId: ObjectId)
      returns (err: Option<ExtError>)
      modifies this, msg
      ensures err == insertErr
      ensures msg.createdAt == now && msg.updatedAt == now
      ensures msg.update == old(msg.update)
      ensures msg.chatId == SavedChatId(old(msg.update), old(msg.chatId))
      ensures insertErr.Some? ==> msg.id == old(msg.id) && docs == old(docs)
      ensures insertErr.None? ==>
        msg.id == (if IsZero(old(msg.id)) then generatedId else old(msg.id)) &&
        docs == old(docs) + [msg.Value()]
    {
      msg.Stamp(now);
      if insertErr.Some? {
        return insertErr;
      }
      var insertedId := if IsZero(msg.id) then generatedId else msg.id;
      docs := docs + [msg.Value().(id := insertedId)];
      msg.id := insertedId;
      return None;
    }

    /** `GetMessageByChatID`: `Find({chat_id})` then decode every document.
        `findErr`, the positions whose decode fails and `cursorErr` are the
        driver's outcomes. */
    method GetMessageByChatID(chatId: int, findErr: Option<ExtError>, decodeFails: map<nat, ExtError>,
                              cursorErr: Option<ExtError>)
      returns (r: Result<seq<Message>, ExtError>)
      ensures r.Err? <==> findErr.Some? || Undecodable(docs, chatId, decodeFails) || cursorErr.Some?
      ensures r.Ok? ==> r.value == ByChat(docs, chatId)
    {
      if findErr.Some? {
        return Err(findErr.value);
      }
      var messages: seq<Message> := [];
      var i := 0;
      while i < |docs|
        invariant 0 <= i <= |docs|
        invariant messages == ByChat(docs[..i], chatId)
        invariant forall p :: p in decodeFails && p < i ==> docs[p].chatId != chatId
      {
        assert docs[..i + 1][..i] == docs[..i];
        if docs[i].chatId == chatId {
          if i in decodeFails {
            return Err(decodeFails[i]);
          }
          messages := messages + [docs[i]];
        }
        i := i + 1;
      }
      if cursorErr.Some? {
        return Err(cursorErr.value);
      }
      assert docs[..i] == docs;
      return Ok(messages);
    }
  }

  // ---------------------------------------------------------------- S3

  /** The errors the S3 backend wraps (`fmt.Errorf("...: %w", err)`). */
  datatype S3Error =
    | MarshalFailed(cause: ExtError)
    | PutFailed(cause: ExtError)
    | ListFailed(cause: ExtError)
    | GetFailed(key: string, cause: ExtError)
    | ReadFailed(key: string, cause: ExtError)
    | UnmarshalFailed(key: string, cause: ExtError)

  /** The first step that fails for one listed object. */
  datatype ObjectFailure = GetFails(e: ExtError) | ReadFails(e: ExtError) | UnmarshalFails(e: ExtError)

  function ObjectError(key: string, f: ObjectFailure): (e: S3Error)
    ensures e.GetFailed? || e.ReadFailed? || e.UnmarshalFailed?
    ensures e.key == key && e.cause == f.e
  {
    match f
    case GetFails(e) => GetFailed(key, e)
    case ReadFails(e) => ReadFailed(key, e)
    case UnmarshalFails(e) => UnmarshalFailed(key, e)
  }

  /** `order` lists every key of `keys` exactly once, in some order. */
  ghost predicate Lists(order: seq<string>, keys: set<string>)
  {
    (forall i, j :: 0 <= i < j < |order| ==> order[i] != order[j]) &&
    (forall k :: k in keys <==> k in order)
  }

  /** `ms` holds, position by position, the objects stored under the keys of `order`. */
  ghost predicate ReadsOf(objects: map<string, Message>, order: seq<string>, ms: seq<Message>)
  {
    |ms| == |order| && forall i :: 0 <= i < |order| ==> order[i] in objects && ms[i] == objects[order[i]]
  }

  /** Listings of two disjoint key sets, one after the other, list their union. */
  lemma ListsConcat(o1: seq<string>, a: set<string>, o2: seq<string>, b: set<string>)
    requires Lists(o1, a) && Lists(o2, b) && a !! b
    ensures Lists(o1 + o2, a + b)
  {
    forall i, j | 0 <= i < j < |o1 + o2| ensures (o1 + o2)[i] != (o1 + o2)[j] {
      if i < |o1| && j >= |o1| {
        assert (o1 + o2)[i] in a && (o1 + o2)[j] in b;
      }
    }
  }

  lemma ReadsConcat(objects: map<string, Message>, o1: seq<string>, m1: seq<Message>, o2: seq<string>, m2: seq<Message>)
    requires ReadsOf(objects, o1, m1) && ReadsOf(objects, o2, m2)
    ensures ReadsOf(objects, o1 + o2, m1 + m2)
  {
    forall i | 0 <= i < |o1 + o2| ensures (o1 + o2)[i] in objects && (m1 + m2)[i] == objects[(o1 + o2)[i]] {
      if i >= |o1| {
        assert (o1 + o2)[i] == o2[i - |o1|] && (m1 + m2)[i] == m2[i - |m1|];
      }
    }
  }

  /** A message is among those read exactly when some listed key stores it. */
  lemma ReadsMembership(objects: map<string, Message>, order: seq<string>, keys: set<string>, ms: seq<Message>, m: Message)
    requires Lists(order, keys) && ReadsOf(objects, order, ms)
    ensures m in ms <==> exists k :: k in keys && k in objects && objects[k] == m
  {
    if m in ms {
      var i :| 0 <= i < |ms| && ms[i] == m;
      assert order[i] in keys;
    }
    if exists k :: k in keys && k in objects && objects[k] == m {
      var k :| k in keys && k in objects && objects[k] == m;
      var i :| 0 <= i < |order| && order[i] == k;
      assert ms[i] == m;
    }
  }

  /** The keys `ListObjects` returns for the prefix of one chat and day. */
  function DayKeys(objects: map<string, Message>, chatId: int, d: Date): set<string>
  {
    set key | key in objects && DayPrefix(chatId, d) <= key
  }

  ghost function KeysOn(objects: map<string, Message>, chatId: int, days: set<Date>): set<string>
  {
    set key | key in objects && exists d :: d in days && DayPrefix(chatId, d) <= key
  }

  /** The keys the seven-day read of a chat visits. */
  ghost function WindowKeys(objects: map<string, Message>, chatId: int, today: Date): set<string>
    requires Valid(today)
  {
    KeysOn(objects, chatId, WindowDays(today))
  }

  /** The read fails: some day's listing fails, or some visited object cannot be fetched,
      read or decoded. */
  ghost predicate ScanFails(objects: map<string, Message>, chatId: int, today: Date,
                            listFails: map<Date, ExtError>, objectFails: map<string, ObjectFailure>)
    requires Valid(today)
  {
    (exists d :: d in WindowDays(today) && d in listFails) ||
    (exists key :: key in WindowKeys(objects, chatId, today) && key in objectFails)
  }

  /** Adding a day to the visited set adds exactly that day's keys, and they are new. */
  lemma KeysOnAdd(objects: map<string, Message>, chatId: int, days: set<Date>, d: Date)
    requires d !in days
    ensures KeysOn(objects, chatId, days + {d}) == KeysOn(objects, chatId, days) + DayKeys(objects, chatId, d)
    ensures KeysOn(objects, chatId, days) !! DayKeys(objects, chatId, d)
  {
    forall key | key in KeysOn(objects, chatId, days)
      ensures !(DayPrefix(chatId, d) <= key)
    {
      var e :| e in days && DayPrefix(chatId, e) <= key;
      PrefixesAgree(chatId, e, chatId, d, key);
    }
  }

  lemma VisitedNext(today: Date, k: nat)
    requires Valid(today) && k < 7
    ensures Visited(today, k + 1) == Visited(today, k) + {Back(today, 6 - k)}
    ensures Back(today, 6 - k) !in Visited(today, k)
  {
    if Back(today, 6 - k) in Visited(today, k) {
      var j :| 7 - k <= j < 7 && Back(today, j) == Back(today, 6 - k);
      BackInjective(today, j, 6 - k);
    }
  }

  /** One turn of the day loop: the day visited is `Back(today, 6 - k)`, one
      of the window's days; its keys are new and extend the visited keys to
      those of `k + 1` days; the next date is the following day of the window,
      or the day after today once the window is done. */
  lemma WindowStep(objects: map<string, Message>, chatId: int, today: Date, k: nat)
    requires Valid(today) && k < 7
    ensures Back(today, 6 - k) in WindowDays(today)
    ensures KeysOn(objects, chatId, Visited(today, k + 1)) ==
            KeysOn(objects, chatId, Visited(today, k)) + DayKeys(objects, chatId, Back(today, 6 - k))
    ensures KeysOn(objects, chatId, Visited(today, k)) !! DayKeys(objects, chatId, Back(today, 6 - k))
    ensures Visited(today, k + 1) == Visited(today, k) + {Back(today, 6 - k)}
    ensures DayKeys(objects, chatId, Back(today, 6 - k)) <= WindowKeys(objects, chatId, today)
    ensures Succ(Back(today, 6 - k)) == if k + 1 < 7 then Back(today, 5 - k) else Succ(today)
    ensures k + 1 < 7 ==> !Before(today, Back(today, 5 - k))
  {
    VisitedNext(today, k);
    KeysOnAdd(objects, chatId, Visited(today, k), Back(today, 6 - k));
    if k < 6 {
      SuccPred(Back(today, 5 - k));
      BackNotAfter(today, 5 - k);
    }
  }

  /** `endDate.AddDate(0, 0, -6)`: the first day of the window. */
  function WindowStart(today: Date): (d: Date)
    requires Valid(today)
    ensures d == Back(today, 6) && !Before(today, d)
  {
    BackNotAfter(today, 6);
    Back(today, 6)
  }

  lemma DayListFailure(objects: map<string, Message>, chatId: int, today: Date,
                       listFails: map<Date, ExtError>, objectFails: map<string, ObjectFailure>, d: Date)
    requires Valid(today) && d in WindowDays(today) && d in listFails
    ensures ScanFails(objects, chatId, today, listFails, objectFails)
  {
  }

  lemma DayObjectFailure(objects: map<string, Message>, chatId: int, today: Date,
                         listFails: map<Date, ExtError>, objectFails: map<string, ObjectFailure>, d: Date)
    requires Valid(today) && DayKeys(objects, chatId, d) <= WindowKeys(objects, chatId, today)
    requires exists key :: key in DayKeys(objects, chatId, d) && key in objectFails
    ensures ScanFails(objects, chatId, today, listFails, objectFails)
  {
    var key :| key in DayKeys(objects, chatId, d) && key in objectFails;
    assert key in WindowKeys(objects, chatId, today);
  }

  lemma NoScanFailure(objects: map<string, Message>, chatId: int, today: Date,
                      listFails: map<Date, ExtError>, objectFails: map<string, ObjectFailure>)
    requires Valid(today)
    requires forall d :: d in Visited(today, 7) ==> d !in listFails
    requires forall key :: key in KeysOn(objects, chatId, Visited(today, 7)) ==> key !in objectFails
    ensures !ScanFails(objects, chatId, today, listFails, objectFails)
  {
  }

  /** Fetches, reads and decodes the listed objects, in the order the listing
      yields them (returned as `order`), stopping at the first that fails. */
  method ScanKeys(objects: map<string, Message>, keys: set<string>, objectFails: map<string, ObjectFailure>)
    returns (r: Result<seq<Message>, S3Error>, ghost order: seq<string>)
    requires keys <= objects.Keys
    ensures r.Err? ==> exists key :: key in keys && key in objectFails && r.error == ObjectError(key, objectFails[key])
    ensures r.Ok? ==> forall key :: key in keys ==> key !in objectFails
    ensures r.Ok? ==> Lists(order, keys) && ReadsOf(objects, order, r.value)
  {
    var listing := keys;
    var found: seq<Message> := [];
    order := [];
    while listing != {}
      invariant listing <= keys
      invariant forall i, j :: 0 <= i < j < |order| ==> order[i] != order[j]
      invariant forall k :: k in order <==> k in keys && k !in listing
      invariant ReadsOf(objects, order, found)
      invariant forall key :: key in order ==> key !in objectFails
      decreases |listing|
    {
      var key :| key in listing;
      if key in objectFails {
        return Err(ObjectError(key, objectFails[key])), order;
      }
      found := found + [objects[key]];
      order := order + [key];
      listing := listing - {key};
    }
    return Ok(found), order;
  }

  /** `S3MessageStorage`: the bucket's objects, by key. */
  class S3MessageStorage {
    const bucket: string
    var objects: map<string, Message>

    constructor (bucket: string)
      ensures this.bucket == bucket && objects == map[]
    {
      this.bucket := bucket;
      objects := map[];
    }

    /** `SaveMessage`: stamps the times, takes the chat ID from the update,
        generates an ID if the record has none, and puts the JSON under
        `GenerateKey(chat, hex id, today)`. `now`/`today` are the clock,
        `newId` is `bson.NewObjectID()`, the two errors are the encoder's
        and the client's outcomes. */
    method SaveMessage(msg: MessageRecord, now: int, today: Date, newId: ObjectId,
                       marshalErr: Option<ExtError>, putErr: Option<ExtError>)
      returns (err: Option<S3Error>)
      modifies this, msg
      ensures msg.createdAt == now && msg.updatedAt == now
      ensures msg.update == old(msg.update)
      ensures msg.chatId == SavedChatId(old(msg.update), old(msg.chatId))
      ensures msg.id == if IsZero(old(msg.id)) then newId else old(msg.id)
      ensures marshalErr.Some? ==> err == Some(MarshalFailed(marshalErr.value)) && objects == old(objects)
      ensures marshalErr.None? && putErr.Some? ==> err == Some(PutFailed(putErr.value)) && objects == old(objects)
      ensures marshalErr.None? && putErr.None? ==>
        err.None? && objects == old(objects)[GenerateKey(msg.chatId, Hex(msg.id), today) := msg.Value()]
    {
      msg.Stamp(now);
      if IsZero(msg.id) {
        msg.id := newId;
      }
      if marshalErr.Some? {
        return Some(MarshalFailed(marshalErr.value));
      }
      var key := GenerateKey(msg.chatId, Hex(msg.id), today);
      if putErr.Some? {
        return Some(PutFailed(putErr.value));
      }
      objects := objects[key := msg.Value()];
      return None;
    }

    /** The inner loop over one day's listing. */
    method ScanDay(chatId: int, d: Date, objectFails: map<string, ObjectFailure>)
      returns (r: Result<seq<Message>, S3Error>, ghost order: seq<string>)
      ensures r.Err? ==>
        exists key :: key in DayKeys(objects, chatId, d) && key in objectFails && r.error == ObjectError(key, objectFails[key])
      ensures r.Ok? ==> forall key :: key in DayKeys(objects, chatId, d) ==> key !in objectFails
      ensures r.Ok? ==> Lists(order, DayKeys(objects, chatId, d)) && ReadsOf(objects, order, r.value)
    {
      var prefix := DayPrefix(chatId, d);
      var listing := set key | key in objects && prefix <= key;
      r, order := ScanKeys(objects, listing, objectFails);
    }

    /** The day loop of `GetMessageByChatID`: visits today-6 ... today and
        gathers every object under each day's prefix, unsorted, in the order
        the listings yield them. */
    method ScanWindow(chatId: int, today: Date, listFails: map<Date, ExtError>,
                      objectFails: map<string, ObjectFailure>)
      returns (r: Result<seq<Message>, S3Error>, ghost order: seq<string>)
      requires Valid(today)
      ensures r.Err? <==> ScanFails(objects, chatId, today, listFails, objectFails)
      ensures r.Ok? ==> Lists(order, WindowKeys(objects, chatId, today)) && ReadsOf(objects, order, r.value)
    {
      var endDate := today;
      ghost var k: nat := 0;
      var date := WindowStart(today);
      var messages: seq<Message> := [];
      order := [];
      ghost var seen: set<string> := {};
      while !Before(endDate, date)
        invariant k <= 7
        invariant date == if k < 7 then Back(today, 6 - k) else Succ(today)
        invariant k < 7 ==> !Before(today, date)
        invariant seen == KeysOn(objects, chatId, Visited(today, k))
        invariant Lists(order, seen) && ReadsOf(objects, order, messages)
        invariant forall d :: d in Visited(today, k) ==> d !in listFails
        invariant forall key :: key in seen ==> key !in objectFails
        decreases 7 - k
      {
        assert k < 7;
        WindowStep(objects, chatId, today, k);
        if date in listFails {
          DayListFailure(objects, chatId, today, listFails, objectFails, date);
          return Err(ListFailed(listFails[date])), order;
        }
        var found, dayOrder := ScanDay(chatId, date, objectFails);
        if found.Err? {
          DayObjectFailure(objects, chatId, today, listFails, objectFails, date);
          return Err(found.error), order;
        }
        ghost var day := DayKeys(objects, chatId, date);
        ListsConcat(order, seen, dayOrder, day);
        ReadsConcat(objects, order, messages, dayOrder, found.value);
        messages := messages + found.value;
        order := order + dayOrder;
        seen := seen + day;
        date := Succ(date);
        k := k + 1;
      }
      NoScanFailure(objects, chatId, today, listFails, objectFails);
      return Ok(messages), order;
    }

    /** `GetMessageByChatID`: the window's messages, sorted by `createdAt`
        (`sort.Slice`). `today` is the clock; the two maps are the client's
        failures per day listing and per object. The result is a permutation
        of the objects under the window's keys, read in some listing order. */
    method GetMessageByChatID(chatId: int, today: Date, listFails: map<Date, ExtError>,
                              objectFails: map<string, ObjectFailure>)
      returns (r: Result<seq<Message>, S3Error>)
      requires Valid(today)
      ensures r.Err? <==> ScanFails(objects, chatId, today, listFails, objectFails)
      ensures r.Ok? ==> SortedBy(r.value, CreatedAt)
      ensures r.Ok? ==> exists order: seq<string>, read: seq<Message> ::
        Lists(order, WindowKeys(objects, chatId, today)) && ReadsOf(objects, order, read) &&
        multiset(r.value) == multiset(read)
    {
      var scanned, order := ScanWindow(chatId, today, listFails, objectFails);
      if scanned.Err? {
        return scanned;
      }
      var messages := scanned.value;
      var arr := new Message[|messages|](i requires 0 <= i < |messages| => messages[i]);
      assert arr[..] == messages;
      SortBy(arr, CreatedAt);
      return Ok(arr[..]);
    }
  }
}
