/**
  The catalog store of the Library controller: one process-wide list of book
  titles, seeded with five titles, read and changed in place by the controller's
  actions. The list is the field `books` of class `Library`; the `List<string>`
  operations the actions rely on (`IndexOf`, the indexer assignment, `Remove`)
  are the functions `IndexOf`, `ReplaceFirst` and `RemoveFirst` below, each with
  the lemmas that say what it does to the list.
 */
module Catalog {
  import opened Wrappers

  const Status200: int := 200
  const Status400: int := 400
  const Status418: int := 418

  /** The body `BringBook` answers with when it is given no name. */
  const Joke: string := "Это очень плохая шутка!"

  /** The titles the catalog holds when the process starts. */
  const Seed: seq<string> := [
    "ASP за 10 дней",
    "ASP за 5 дней",
    "ASP за 1 дней",
    "Комикс",
    "Преступление и наказание"
  ]

  /** An HTTP answer: a status code and, for `Ok(value)`, a body. */
  datatype Response = Response(status: int, body: Option<string>)

  /** `string.IsNullOrEmpty`. */
  predicate IsNullOrEmpty(s: Option<string>) {
    s.None? || s.value == ""
  }

  /** `i` is the position of the first title in `s` equal to `x`. */
  predicate IsFirst(s: seq<string>, x: string, i: int) {
    0 <= i < |s| && s[i] == x && forall j :: 0 <= j < i ==> s[j] != x
  }

  /** `List<string>.IndexOf`: the first position holding `x` (ordinal
      comparison), or -1 when no slot does. */
  function IndexOf(s: seq<string>, x: string): (r: int)
    ensures -1 <= r < |s|
    ensures r == -1 <==> x !in s
    ensures r != -1 ==> IsFirst(s, x, r)
  {
    if s == [] then -1
    else if s[0] == x then 0
    else
      var k := IndexOf(s[1..], x);
      if k == -1 then -1 else k + 1
  }

  /** `_library[IndexOf(x)] = y` guarded by `IndexOf(x) != -1`: the first slot
      holding `x`, if any, now holds `y`. */
  function ReplaceFirst(s: seq<string>, x: string, y: string): (r: seq<string>)
    ensures |r| == |s|
    ensures x !in s ==> r == s
    ensures forall i :: IsFirst(s, x, i) ==>
      r[i] == y && forall j :: 0 <= j < |s| && j != i ==> r[j] == s[j]
  {
    var i := IndexOf(s, x);
    if i == -1 then s else s[i := y]
  }

  /** `List<string>.Remove(x)`: the first slot holding `x`, if any, is taken
      out; the titles before it keep their positions and those after it move
      down by one. */
  function RemoveFirst(s: seq<string>, x: string): (r: seq<string>)
    ensures x !in s ==> r == s
    ensures x in s ==> |r| == |s| - 1
    ensures forall i :: IsFirst(s, x, i) ==>
      (forall j :: 0 <= j < i ==> r[j] == s[j]) &&
      (forall j :: i <= j < |r| ==> r[j] == s[j + 1])
  {
    var i := IndexOf(s, x);
    if i == -1 then s else s[..i] + s[i + 1..]
  }

  /** Replacing swaps exactly one copy of `x` for one copy of `y`. */
  lemma ReplaceFirstMultiset(s: seq<string>, x: string, y: string)
    requires x in s
    ensures multiset(ReplaceFirst(s, x, y)) == multiset(s) - multiset{x} + multiset{y}
  {
  }

  /** Removing takes out exactly one copy of `x` and nothing else. */
  lemma RemoveFirstMultiset(s: seq<string>, x: string)
    requires x in s
    ensures multiset(RemoveFirst(s, x)) == multiset(s) - multiset{x}
  {
    var i := IndexOf(s, x);
    var before, after := s[..i], s[i + 1..];
    assert s == before + [x] + after;
    assert RemoveFirst(s, x) == before + after;
    assert multiset(s) == multiset(before) + multiset{x} + multiset(after);
  }

  /** Deleting a title that was just appended, and occurred nowhere before,
      gives back the list as it was. */
  lemma RemoveUndoesAppend(s: seq<string>, x: string)
    requires x !in s
    ensures RemoveFirst(s + [x], x) == s
  {
    assert IsFirst(s + [x], x, |s|);
  }

  /** Replacing `x` by a title `y` the list does not hold, and then `y` by
      `x`, gives back the list as it was. */
  lemma ReplaceBack(s: seq<string>, x: string, y: string)
    requires y !in s
    ensures ReplaceFirst(ReplaceFirst(s, x, y), y, x) == s
  {
    if x in s {
      var i := IndexOf(s, x);
      var t := ReplaceFirst(s, x, y);
      assert IsFirst(t, y, i);
    }
  }

  /**
    The controller's state. The source keeps the list in a static field, so
    every request sees the same one; here that is the single `Library`
    object the requests are run against.
   */
  class Library {
    var books: seq<string>

    /** The catalog as the process starts it. */
    constructor ()
      ensures books == Seed
    {
      books := Seed;
    }

    /** `GetAll`: the whole list, in order; nothing changes. */
    method GetAll() returns (r: seq<string>)
      ensures r == books
    {
      r := books;
    }

    /** `GetBookFromQuery`: the title at `index` with 200, or 418 with no body
        once `index` is past the end. The source checks only the upper bound;
        a negative index would make the list indexer throw. */
    method GetBookFromQuery(index: int) returns (resp: Response)
      requires 0 <= index
      ensures resp.status == Status200 <==> index < |books|
      ensures resp.status == Status200 ==> resp.body == Some(books[index])
      ensures resp.status != Status200 ==> resp == Response(Status418, None)
    {
      if index < |books| {
        resp := Response(Status200, Some(books[index]));
        return;
      }
      resp := Response(Status418, None);
    }

    /** `GetBookFromRoute`: the same lookup as `GetBookFromQuery`; only the
        place the index is bound from differs (see module Routing). */
    method GetBookFromRoute(index: int) returns (resp: Response)
      requires 0 <= index
      ensures resp.status == Status200 <==> index < |books|
      ensures resp.status == Status200 ==> resp.body == Some(books[index])
      ensures resp.status != Status200 ==> resp == Response(Status418, None)
    {
      if index < |books| {
        resp := Response(Status200, Some(books[index]));
        return;
      }
      resp := Response(Status418, None);
    }

    /** `BringBook`: no name or an empty one gets the joke with 200 and changes
        nothing; any other name is appended and gets 200 with no body. */
    method BringBook(bookName: Option<string>) returns (resp: Response)
      modifies this
      ensures IsNullOrEmpty(bookName) ==>
        resp == Response(Status200, Some(Joke)) && books == old(books)
      ensures !IsNullOrEmpty(bookName) ==>
        resp == Response(Status200, None) && books == old(books) + [bookName.value]
    {
      if IsNullOrEmpty(bookName) {
        resp := Response(Status200, Some(Joke));
        return;
      }
      books := books + [bookName.value];
      resp := Response(Status200, None);
    }

    /** `ChangeBook`: overwrites the first slot holding `oldName` with
        `newName` and answers `newName`; when no slot holds it, nothing changes
        and the answer is the empty string. */
    method ChangeBook(oldName: string, newName: string) returns (r: string)
      modifies this
      ensures books == ReplaceFirst(old(books), oldName, newName)
      ensures r == if oldName in old(books) then newName else ""
    {
      var bookIndex := IndexOf(books, oldName);
      var returnValue := "";
      if bookIndex != -1 {
        books := books[bookIndex := newName];
        returnValue := newName;
      }
      r := returnValue;
    }

    /** `DeleteBook`: reads `bookName` from the matched route's values; when it
        is missing or empty nothing is searched. Otherwise the first slot
        holding it is removed. The status is 200 when a title was removed and
        400 otherwise, with no body. */
    method DeleteBook(routeValues: map<string, string>) returns (status: int)
      modifies this
      ensures status == Status200 || status == Status400
      ensures status == Status200 <==>
        "bookName" in routeValues && routeValues["bookName"] != "" &&
        routeValues["bookName"] in old(books)
      ensures status == Status200 ==> books == RemoveFirst(old(books), routeValues["bookName"])
      ensures status == Status400 ==> books == old(books)
    {
      var bookName := if "bookName" in routeValues then Some(routeValues["bookName"]) else None;
      var isRemoved := false;
      if !IsNullOrEmpty(bookName) {
        var i := IndexOf(books, bookName.value);
        if i != -1 {
          books := books[..i] + books[i + 1..];
          isRemoved := true;
        }
      }
      status := if isRemoved then Status200 else Status400;
    }
  }
}
