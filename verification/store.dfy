/**
  * What the form routes share: the state of a JSON data file as the routes read it, the
  * `Array.prototype.find` lookup by id, and the submission responses.
  */
module Store {
  import opened Wrappers
  import opened Validator

  /**
    * A data file (`data/quotes.json`, `data/contacts.json`) as `readFile` + `JSON.parse` see it:
    * absent or unreadable, not valid JSON, valid JSON that is not an array, or an array of records.
    */
  datatype StoreFile<R> = Missing | Malformed | NotAnArray | Records(items: seq<R>)

  /**
    * The list a save starts from: the records of the file, and the empty list when the file is
    * absent or does not parse. A non-array value makes the following `push` throw, so the save
    * fails before this list is used.
    */
  function ExistingRecords<R>(f: StoreFile<R>): (r: seq<R>)
    ensures f.Records? ==> r == f.items
    ensures !f.Records? ==> r == []
  {
    if f.Records? then f.items else []
  }

  /** `i` is the position of the first record whose id is `key`. */
  predicate IsFirst(ids: seq<string>, i: nat, key: string) {
    i < |ids| && ids[i] == key && forall j :: 0 <= j < i ==> ids[j] != key
  }

  /** `ids.findIndex(id => id === key)`: the first position holding `key`, if any. */
  function FirstIndex(ids: seq<string>, key: string): (r: Option<nat>)
    ensures r.Some? ==> IsFirst(ids, r.value, key)
    ensures r.None? <==> key !in ids
  {
    if ids == [] then None
    else if ids[0] == key then Some(0)
    else match FirstIndex(ids[1..], key)
      case None => None
      case Some(k) => Some(k + 1)
  }

  /** Appending a record never changes which earlier record a lookup finds. */
  lemma {:induction false} FirstIndexAppend(ids: seq<string>, id: string, key: string)
    ensures FirstIndex(ids + [id], key) ==
      if key in ids then FirstIndex(ids, key)
      else if id == key then Some(|ids|)
      else None
  {
    if ids != [] {
      assert (ids + [id])[1..] == ids[1..] + [id];
      FirstIndexAppend(ids[1..], id, key);
    } else {
      assert ids + [id] == [id];
    }
  }

  /** The response of a form submission: 201, 400 or 500. */
  datatype SubmitResponse =
    | Created(message: string, id: string, timestamp: string)
    | ValidationFailed(error: string, details: seq<FieldError>)
    | ServerError(error: string, message: string)
  {
    function StatusCode(): int {
      match this
      case Created(_, _, _) => 201
      case ValidationFailed(_, _) => 400
      case ServerError(_, _) => 500
    }
  }

  const ValidationFailedError := "Validation failed"
  const TryLaterMessage := "Please try again later or contact us directly"
  const StatusNew := "new"
}
