/** The in-memory bookmark router: the list, create, get-by-id and delete-by-id
    handlers over the shared `bookmarks` array, with their HTTP outcomes. */
module Router {
  import opened JsValues
  import opened Validation

  datatype Option<T> = None | Some(value: T)

  /** The record the create handler builds and stores. It carries no rating:
      the rating is validated and then dropped. */
  datatype Bookmark = Bookmark(id: string, title: Json, url: Json, description: Json)

  /** What a handler sends: plain text, one record or the whole array as JSON,
      or nothing at all. */
  datatype Body =
    | Text(text: string)
    | One(bookmark: Bookmark)
    | All(bookmarks: seq<Bookmark>)
    | NoContent

  /** A handler's outcome: the status code, the `Location` header if one is
      set, and the body. */
  datatype Response = Response(status: int, location: Option<string>, body: Body)

  const InvalidDataText := "Invalid data"
  const InvalidRatingText := "Rating must be a number between 0-5"
  const InvalidUrlText := "url nmust be a valid URL"
  const GetNotFoundText := "Bookmark not found"
  const DeleteNotFoundText := "Not found"
  const LocationBase := "http://localhost:8000/bookmark/"

  /** The text of a 400 answer. The three missing-field rejections share one
      text, so a client cannot tell which field was missing; the rating and
      URL rejections each have their own. */
  function Message(r: Rejection): (m: string)
    ensures m == InvalidDataText <==> r.MissingTitle? || r.MissingUrl? || r.MissingDescription?
    ensures m == InvalidRatingText <==> r.InvalidRating?
    ensures m == InvalidUrlText <==> r.InvalidUrl?
  {
    match r
    case MissingTitle => InvalidDataText
    case MissingUrl => InvalidDataText
    case MissingDescription => InvalidDataText
    case InvalidRating => InvalidRatingText
    case InvalidUrl => InvalidUrlText
  }

  /** The record stored for an accepted request under the generated `id`. */
  function NewRecord(id: string, req: CreateRequest): (b: Bookmark)
    ensures b.id == id
    ensures b.title == req.title && b.url == req.url && b.description == req.description
  {
    Bookmark(id, req.title, req.url, req.description)
  }

  /** The rating takes no part in the stored record: two requests that differ
      only in their rating are stored alike. */
  lemma RatingNotStored(id: string, req: CreateRequest, rating: Json)
    ensures NewRecord(id, req.(rating := rating)) == NewRecord(id, req)
  {
  }

  /** The `Location` of a created bookmark: the fixed route prefix followed by
      its id. */
  function Location(id: string): (l: string)
    ensures |l| == |LocationBase| + |id|
    ensures l[..|LocationBase|] == LocationBase && l[|LocationBase|..] == id
  {
    LocationBase + id
  }

  /** The index `findIndex(b => b.id == id)` returns: the first position whose
      record has this id, or -1 when there is none. */
  function FirstIndexOf(s: seq<Bookmark>, id: string): (i: int)
    ensures -1 <= i < |s|
    ensures i == -1 <==> forall k :: 0 <= k < |s| ==> s[k].id != id
    ensures i != -1 ==> s[i].id == id && forall k :: 0 <= k < i ==> s[k].id != id
  {
    if s == [] then -1
    else if s[0].id == id then 0
    else
      var j := FirstIndexOf(s[1..], id);
      if j == -1 then -1 else j + 1
  }

  /** Appending a record leaves an earlier match where it was; otherwise the
      appended record is found exactly when it has the id. */
  lemma {:induction false} FirstIndexOfAppend(s: seq<Bookmark>, b: Bookmark, id: string)
    ensures FirstIndexOf(s + [b], id) ==
      if FirstIndexOf(s, id) != -1 then FirstIndexOf(s, id)
      else if b.id == id then |s|
      else -1
  {
    if s != [] && s[0].id != id {
      assert (s + [b])[1..] == s[1..] + [b];
      FirstIndexOfAppend(s[1..], b, id);
    }
  }

  /** `splice(i, 1)`: the array without its element at `i`. */
  function RemoveAt(s: seq<Bookmark>, i: int): (r: seq<Bookmark>)
    requires 0 <= i < |s|
    ensures |r| == |s| - 1
    ensures forall k :: 0 <= k < i ==> r[k] == s[k]
    ensures forall k :: i <= k < |r| ==> r[k] == s[k + 1]
    ensures multiset(r) + multiset{s[i]} == multiset(s)
  {
    assert s == s[..i] + [s[i]] + s[i + 1..];
    s[..i] + s[i + 1..]
  }

  /** No two records share an id. */
  predicate DistinctIds(s: seq<Bookmark>) {
    forall i, j :: 0 <= i < j < |s| ==> s[i].id != s[j].id
  }

  /** Creating under an id that is not yet stored keeps the ids distinct, and
      a following lookup of that id finds the new record at the end. */
  lemma CreateFreshId(s: seq<Bookmark>, id: string, req: CreateRequest)
    requires FirstIndexOf(s, id) == -1
    ensures FirstIndexOf(s + [NewRecord(id, req)], id) == |s|
    ensures DistinctIds(s) ==> DistinctIds(s + [NewRecord(id, req)])
  {
    FirstIndexOfAppend(s, NewRecord(id, req), id);
  }

  /** Deleting the first match from a store with distinct ids leaves no record
      with that id and keeps the ids distinct. */
  lemma DeleteLeavesNoMatch(s: seq<Bookmark>, id: string)
    requires DistinctIds(s) && FirstIndexOf(s, id) != -1
    ensures FirstIndexOf(RemoveAt(s, FirstIndexOf(s, id)), id) == -1
    ensures DistinctIds(RemoveAt(s, FirstIndexOf(s, id)))
  {
  }

  /** `Array.prototype.findIndex` with the predicate `b => b.id == id`: a
      linear search from the front. */
  method FindIndex(s: seq<Bookmark>, id: string) returns (i: int)
    ensures i == FirstIndexOf(s, id)
  {
    i := 0;
    while i < |s|
      invariant 0 <= i <= |s|
      invariant forall k :: 0 <= k < i ==> s[k].id != id
    {
      if s[i].id == id {
        return;
      }
      i := i + 1;
    }
    i := -1;
  }

  /** `Array.prototype.find` with the predicate `b => b.id == id`: the first
      record with this id, or nothing. */
  method Find(s: seq<Bookmark>, id: string) returns (found: Option<Bookmark>)
    ensures found.None? <==> FirstIndexOf(s, id) == -1
    ensures found.Some? ==> found.value == s[FirstIndexOf(s, id)]
  {
    var i := 0;
    while i < |s|
      invariant 0 <= i <= |s|
      invariant forall k :: 0 <= k < i ==> s[k].id != id
    {
      if s[i].id == id {
        return Some(s[i]);
      }
      i := i + 1;
    }
    return None;
  }

  /** The shared `bookmarks` array and the four handlers that use it. */
  class BookmarkStore {
    var bookmarks: seq<Bookmark>

    /** The store starts with whatever the store module holds at load time. */
    constructor (initial: seq<Bookmark>)
      ensures bookmarks == initial
    {
      bookmarks := initial;
    }

    /** GET /bookmark: 200 with the whole array as it is, also when it is
        empty. */
    method List() returns (r: Response)
      ensures r.status == 200 && r.location == None
      ensures r.body == All(bookmarks)
    {
      r := Response(200, None, All(bookmarks));
    }

    /** POST /bookmark: run the checks in order and answer 400 at the first
        that fails, storing nothing; otherwise append the new record under
        `id` and answer 201 with its location and the record. */
    method Create(req: CreateRequest, id: string, isWebUri: Json -> bool) returns (r: Response)
      modifies this
      ensures Validate(req, isWebUri).Rejected? ==>
        bookmarks == old(bookmarks) &&
        r == Response(400, None, Text(Message(Validate(req, isWebUri).reason)))
      ensures Validate(req, isWebUri).Accepted? ==>
        bookmarks == old(bookmarks) + [NewRecord(id, req)] &&
        r == Response(201, Some(Location(id)), One(NewRecord(id, req)))
    {
      ValidationOrder(req, isWebUri);
      if !Truthy(req.title) {
        return Response(400, None, Text(InvalidDataText));
      }
      if !Truthy(req.url) {
        return Response(400, None, Text(InvalidDataText));
      }
      if !Truthy(req.description) {
        return Response(400, None, Text(InvalidDataText));
      }
      if !IsInteger(req.rating) || req.rating.n < 0.0 || req.rating.n > 5.0 {
        return Response(400, None, Text(InvalidRatingText));
      }
      if !isWebUri(req.url) {
        return Response(400, None, Text(InvalidUrlText));
      }
      var bookmark := Bookmark(id, req.title, req.url, req.description);
      bookmarks := bookmarks + [bookmark];
      r := Response(201, Some(LocationBase + id), One(bookmark));
    }

    /** GET /bookmark/:id: 200 with the first record that has the id, or 404
        when none has it. */
    method Get(id: string) returns (r: Response)
      ensures FirstIndexOf(bookmarks, id) == -1 ==>
        r == Response(404, None, Text(GetNotFoundText))
      ensures FirstIndexOf(bookmarks, id) != -1 ==>
        r == Response(200, None, One(bookmarks[FirstIndexOf(bookmarks, id)]))
    {
      var found := Find(bookmarks, id);
      if found.None? {
        return Response(404, None, Text(GetNotFoundText));
      }
      r := Response(200, None, One(found.value));
    }

    /** DELETE /bookmark/:id: remove the first record that has the id and
        answer 204, or answer 404 and leave the array alone. */
    method Delete(id: string) returns (r: Response)
      modifies this
      ensures FirstIndexOf(old(bookmarks), id) == -1 ==>
        bookmarks == old(bookmarks) && r == Response(404, None, Text(DeleteNotFoundText))
      ensures FirstIndexOf(old(bookmarks), id) != -1 ==>
        bookmarks == RemoveAt(old(bookmarks), FirstIndexOf(old(bookmarks), id)) &&
        r == Response(204, None, NoContent)
    {
      var i := FindIndex(bookmarks, id);
      if i == -1 {
        return Response(404, None, Text(DeleteNotFoundText));
      }
      bookmarks := bookmarks[..i] + bookmarks[i + 1..];
      r := Response(204, None, NoContent);
    }
  }
}
