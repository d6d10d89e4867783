# Library controller: catalog store and routing table

The `Library` controller of the Lecture3 web API keeps an in-memory list of
book titles and exposes it through six actions reached by thirteen
(HTTP verb, path) bindings. This project models its two parts in Dafny.

- **Catalog store** (`catalog.dfy`, module `Catalog`). Class `Library` owns
  the process-wide list as a `seq<string>` field. The constructor gives it
  the five seed titles. The methods mirror the actions: `GetAll`,
  `GetBookFromQuery`, `GetBookFromRoute`, `BringBook`, `ChangeBook` and
  `DeleteBook`. The three that change the list (`BringBook`, `ChangeBook`,
  `DeleteBook`) modify the field in place. Their contracts give the exact
  status code, body and new list. The `List<string>` operations the actions
  use are modelled as functions: `IndexOf`, and `ReplaceFirst` for the
  indexer assignment guarded by `IndexOf`. `RemoveFirst` models `Remove`.
  Lemmas state what each does to the list: which slot is hit, what keeps
  its position and what shifts. They also show the multiset change and the
  round trips (remove undoes append, replace-back undoes replace).
- **Routing table** (`routing.dfy`, module `Routing`). The verb and `Route`
  attributes on each action are data (`Declarations`). The combination rule
  is a function: a verb attribute with its own template ignores `Route`; one
  without a template inherits `Route`, or else binds the controller root.
  `TableIsDocumented` proves that applying this rule gives exactly the
  thirteen bindings the comments list (`Documented`). `Match(verb, path)`
  routes a request to the applying binding's action. It also returns the
  values captured by the `{name}` segments. The lemmas prove several
  facts. No request fits two bindings (`NoOverlap`). Whichever binding
  fits is the one chosen (`MatchComplete`). Routing agrees, for every
  request, with a case-by-case description written from the comments
  (`MatchIsDescribed`). The verb is part of the key, and `get` and
  `get/{index}` never collide.

Paths are the segments below the controller's route `api/[controller]`, so
the controller root is the empty path. A response is a status code and an
optional body. `None` stands for C#'s `null` and for an empty result
(`StatusCodeResult`, `Ok()`).

The comments on the two fetch actions promise the found book with 200, or
an empty body with 418. The code only checks `index < Count`, so a negative
index reaches the list indexer, which throws. The model follows the code,
and the fetch methods require a non-negative index.

## Model

| member | source | states |
|---|---|---|
| `Catalog.Library.constructor` | Lecture3/Controllers/Library.cs:9-15 | the list starts as the five seed titles, in order |
| `Catalog.Library.GetAll` | Lecture3/Controllers/Library.cs:35-37 | returns the current list exactly, changing nothing |
| `Catalog.Library.GetBookFromQuery` | Lecture3/Controllers/Library.cs:61-67 | status 200 iff `index < Count`, then the body is the title at `index`; otherwise 418 with no body |
| `Catalog.Library.GetBookFromRoute` | Lecture3/Controllers/Library.cs:90-96 | the same outcome as the query variant, for an index bound from the route |
| `Catalog.Library.BringBook` | Lecture3/Controllers/Library.cs:111-119 | a null or empty name gets 200 with the joke text and leaves the list alone; any other name is appended at the end and gets 200 with no body |
| `Catalog.Library.ChangeBook` | Lecture3/Controllers/Library.cs:131-141 | the new list is `ReplaceFirst(old, oldName, newName)`; the answer is `newName` iff `oldName` was present, else "" |
| `Catalog.Library.DeleteBook` | Lecture3/Controllers/Library.cs:155-159 | 200 iff the route value `bookName` exists, is non-empty and is in the list, and then its first occurrence is removed; otherwise 400 and the list is unchanged |
| `Catalog.IsNullOrEmpty` | Lecture3/Controllers/Library.cs:112 | `string.IsNullOrEmpty`: true for `null` and for the zero-length string; `BringBook` and `DeleteBook` branch on it |
| `Catalog.IndexOf` | Lecture3/Controllers/Library.cs:132 | -1 exactly when the title is absent; otherwise the position of its first occurrence |
| `Catalog.ReplaceFirst` | Lecture3/Controllers/Library.cs:132-138 | same length; the first slot holding `x` now holds `y` and every other slot is unchanged; no change when `x` is absent |
| `Catalog.RemoveFirst` | Lecture3/Controllers/Library.cs:157 | no change when `x` is absent; otherwise one shorter, titles before the first `x` keep their positions and later ones move down by one |
| `Catalog.ReplaceFirstMultiset` | Lecture3/Controllers/Library.cs:136 | a replacement swaps exactly one copy of `x` for one copy of `y` |
| `Catalog.RemoveFirstMultiset` | Lecture3/Controllers/Library.cs:157 | a removal takes out exactly one copy of `x` and nothing else |
| `Catalog.RemoveUndoesAppend` | Lecture3/Controllers/Library.cs:116-157 | removing a title just appended, absent before, restores the list |
| `Catalog.ReplaceBack` | Lecture3/Controllers/Library.cs:132-140 | replacing `x` by an absent `y` and then `y` by `x` restores the list |
| `Routing.DeclarationsAsWritten` | Lecture3/Controllers/Library.cs:30-152 | the attribute data: one declaration per action in source order, with 4, 3, 2, 2, 1 and 1 verb attributes; only `GetAll` carries `[Route("all")]` |
| `Routing.EffectivePattern` | Lecture3/Controllers/Library.cs:24-48 | encodes the combination rule: a verb attribute's own template wins and `Route` is ignored; without one, `Route` applies; without either, the controller root. `TableIsDocumented` checks the result |
| `Routing.TableIsDocumented` | Lecture3/Controllers/Library.cs:19-152 | combining each action's verb and `Route` attributes gives exactly the thirteen documented bindings |
| `Routing.Fits` | Lecture3/Controllers/Library.cs:78 | encodes segment matching: equal length, each literal equal to its segment, each `{name}` facing any non-empty segment. `MatchIsDescribed` checks routing built on it |
| `Routing.Captures` | Lecture3/Controllers/Library.cs:78 | the captured names are exactly the pattern's `{name}` segments, each bound to the path segment in its place |
| `Routing.Match` | Lecture3/Controllers/Library.cs:24-26 | no result exactly when no binding of that verb fits the path; otherwise the action and captures of a binding that fits |
| `Routing.DisjointShareNoPath` | Lecture3/Controllers/Library.cs:78 | patterns of different length or with clashing literals share no path |
| `Routing.DocumentedDisjoint` | Lecture3/Controllers/Library.cs:30-152 | any two bindings of the same verb have disjoint patterns |
| `Routing.NoOverlap` | Lecture3/Controllers/Library.cs:45-48 | at most one binding fits any request |
| `Routing.MatchComplete` | Lecture3/Controllers/Library.cs:25 | the binding that fits a request is the one routing selects, with its captures |
| `Routing.MatchRoot` | Lecture3/Controllers/Library.cs:42-47 | the controller root goes to `GetBookFromQuery` for GET and `GetBookFromRoute` for POST, and nowhere for other verbs |
| `Routing.MatchOneSegment` | Lecture3/Controllers/Library.cs:19-26 | GET/PATCH/OPTIONS `all` and POST `everything` go to `GetAll`; GET `take` and `get` go to `GetBookFromQuery`; POST `bringBook` and `sendBook` go to `BringBook`; nothing else with one segment is routed |
| `Routing.MatchTwoSegments` | Lecture3/Controllers/Library.cs:77-78 | `get/{index}`, `changeBook/{oldName}` and `deleteBook/{bookName}` route for their verb with a non-empty second segment captured; nothing else with two segments is routed |
| `Routing.MatchIsDescribed` | Lecture3/Controllers/Library.cs:17-152 | for every verb and path, routing by the attribute table equals the description written from the comments |
| `Routing.DeleteBookRoute` | Lecture3/Controllers/Library.cs:146-156 | a DELETE is routed exactly when its path is `deleteBook/X` with `X` non-empty, and then the captured values are exactly `bookName := X` |

## Left out

- ASP.NET Core hosting, `[ApiController]` behaviour and the real attribute-routing engine are not modelled. The table is data combined by the rules the comments state.
- Model binding is not modelled: parsing `index` from query or route text, `[FromQuery]`/`[FromRoute]` defaults, and handing the bound values to the action. The methods take already-bound values. `DeleteBook` takes the request's route values as a map; its `bookName` entry is the one `Match` captures.
- `Match` returns only the values captured by the template's `{name}` segments. The `controller` and `action` entries that ASP.NET also puts in `Request.RouteValues` are not modelled; `DeleteBook` reads only `bookName`.
- POST on the controller root binds `GetBookFromRoute` but captures no `index` (`MatchRoot` shows no captured values). The value the framework then binds for `index` is not modelled.
- Catalog.Library.GetBookFromQuery: requires `0 <= index`. The source lets a negative index reach the list indexer, which throws; that exception is not modelled.
- Catalog.Library.GetBookFromRoute: requires `0 <= index`, for the same reason.
- Route templates are written as segment lists. Template text is not parsed.
- The controller prefix `api/[controller]` is left out. Literals match by exact, case-sensitive equality, whereas ASP.NET compares path literals case-insensitively.
- `ProducesResponseType` metadata, JSON serialisation of bodies, and the `HttpContext`/`Response` objects are left out. A response is a (status, optional body) value. `GetAll` returns the list and `ChangeBook` the string, as in the source.
- Concurrency is left out. The list is a static field shared by all requests without locking. The model runs one request at a time on one `Library` object.
