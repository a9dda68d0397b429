/** Values shared by every part of the model: optional values, results, and
    the opaque errors returned by collaborators that the model does not see
    (the MongoDB driver, the MinIO client, the Telegram API, HTTP). */
module Common {

  datatype Option<+T> = None | Some(value: T)

  datatype Result<+T, +E> = Ok(value: T) | Err(error: E)

  /** An error produced outside the model; only its identity matters. */
  datatype ExtError = ExtError(reason: string)
}

/** What a MongoDB collection's `FindOne` sees: documents in natural
    (insertion) order, the first one matching the filter wins. */
module Documents {
  import opened Common

  /** Index of the first element satisfying `matches`, if any. */
  function FirstMatch<T>(docs: seq<T>, matches: T -> bool): (r: Option<nat>)
    ensures r.Some? ==> r.value < |docs| && matches(docs[r.value])
    ensures r.Some? ==> forall j :: 0 <= j < r.value ==> !matches(docs[j])
    ensures r.None? <==> forall j :: 0 <= j < |docs| ==> !matches(docs[j])
    decreases |docs|
  {
    if docs == [] then None
    else if matches(docs[0]) then Some(0)
    else match FirstMatch(docs[1..], matches)
      case None => None
      case Some(i) => Some(i + 1)
  }

  /** Appending a document never changes which earlier document is found
      first, and the new document is found only when nothing before matched. */
  lemma {:induction false} FirstMatchAppend<T>(docs: seq<T>, d: T, matches: T -> bool)
    ensures FirstMatch(docs + [d], matches) ==
      if FirstMatch(docs, matches).Some? then FirstMatch(docs, matches)
      else if matches(d) then Some(|docs|) else None
  {
    var dd := docs + [d];
    assert forall j :: 0 <= j < |docs| ==> dd[j] == docs[j];
    assert dd[|docs|] == d;
  }

  /** A matching document with no match before it is the one found. */
  lemma FirstMatchAt<T>(docs: seq<T>, matches: T -> bool, i: nat)
    requires i < |docs| && matches(docs[i])
    requires forall j :: 0 <= j < i ==> !matches(docs[j])
    ensures FirstMatch(docs, matches) == Some(i)
  {
  }

  /** Two collections that agree position by position on the filter give the same answer. */
  lemma FirstMatchSame<T>(a: seq<T>, b: seq<T>, matches: T -> bool)
    requires |a| == |b|
    requires forall j :: 0 <= j < |a| ==> matches(a[j]) == matches(b[j])
    ensures FirstMatch(a, matches) == FirstMatch(b, matches)
  {
    if FirstMatch(a, matches).Some? {
      FirstMatchAt(b, matches, FirstMatch(a, matches).value);
    }
  }

  /** The three outcomes of a `FindOne(...).Decode(...)`: a document, none
      (`mongo.ErrNoDocuments`), or another error. */
  datatype Lookup<+T, +E> = Found(value: T) | NotFound | Failed(error: E)

  /** `FindOne` with a filter over the documents in natural order; `findErr`
      is a driver failure. */
  function FindOne<T>(docs: seq<T>, matches: T -> bool, findErr: Option<ExtError>): (r: Lookup<T, ExtError>)
    ensures findErr.Some? ==> r == Failed(findErr.value)
    ensures findErr.None? ==> !r.Failed?
    ensures findErr.None? ==> (r.NotFound? <==> forall j :: 0 <= j < |docs| ==> !matches(docs[j]))
    ensures r.Found? ==>
      exists i :: 0 <= i < |docs| && docs[i] == r.value && matches(docs[i]) &&
                  forall j :: 0 <= j < i ==> !matches(docs[j])
  {
    if findErr.Some? then Failed(findErr.value)
    else match FirstMatch(docs, matches)
      case None => NotFound
      case Some(i) => Found(docs[i])
  }

  /** After inserting a matching document, `FindOne` finds a document, and the
      same one as before when one matched already. */
  lemma FindOneAfterInsert<T>(docs: seq<T>, d: T, matches: T -> bool)
    requires matches(d)
    ensures FindOne(docs + [d], matches, None).Found?
    ensures FindOne(docs, matches, None).Found? ==> FindOne(docs + [d], matches, None) == FindOne(docs, matches, None)
  {
    FirstMatchAppend(docs, d, matches);
    var dd := docs + [d];
    assert forall j :: 0 <= j < |docs| ==> dd[j] == docs[j];
  }
}
