/**
  The routing table of the Library controller. Each action carries HTTP verb
  attributes (`[HttpGet]`, `[HttpPost("everything")]`, ...) and possibly a
  `[Route("all")]` attribute; together they bind (verb, path pattern) pairs to
  the action. Paths here are the segments after the controller's own route
  `api/[controller]`, so the controller root is the empty path.
 */
module Routing {
  import opened Wrappers

  datatype Verb = Get | Post | Put | Patch | Delete | Options

  /** One segment of a route template: literal text, or `{name}`. */
  datatype Segment = Lit(text: string) | Var(name: string)

  /** The controller's actions. */
  datatype Action =
    | GetAll | GetBookFromQuery | GetBookFromRoute | BringBook | ChangeBook | DeleteBook

  /** `[HttpX]` (no template) or `[HttpX("template")]`. */
  datatype VerbAttribute = VerbAttribute(verb: Verb, template: Option<seq<Segment>>)

  /** The routing attributes written on one action. */
  datatype Declaration = Declaration(action: Action, verbs: seq<VerbAttribute>, route: Option<seq<Segment>>)

  /** One entry of the resulting table: requests with this verb whose path
      fits this pattern go to this action. */
  datatype Binding = Binding(verb: Verb, pattern: seq<Segment>, action: Action)

  /** The outcome of routing: the action and the values captured by the
      pattern's `{name}` segments. These are the template's part of the
      request's route values; the `controller` and `action` entries the
      framework adds are not modelled. */
  datatype RouteMatch = RouteMatch(action: Action, captured: map<string, string>)

  /** The attributes as they stand on the six actions, in source order. */
  const Declarations: seq<Declaration> := [
    Declaration(GetAll,
      [VerbAttribute(Get, None), VerbAttribute(Post, Some([Lit("everything")])),
       VerbAttribute(Patch, None), VerbAttribute(Options, None)],
      Some([Lit("all")])),
    Declaration(GetBookFromQuery,
      [VerbAttribute(Get, None), VerbAttribute(Get, Some([Lit("take")])),
       VerbAttribute(Get, Some([Lit("get")]))],
      None),
    Declaration(GetBookFromRoute,
      [VerbAttribute(Post, None), VerbAttribute(Get, Some([Lit("get"), Var("index")]))],
      None),
    Declaration(BringBook,
      [VerbAttribute(Post, Some([Lit("bringBook")])), VerbAttribute(Post, Some([Lit("sendBook")]))],
      None),
    Declaration(ChangeBook,
      [VerbAttribute(Put, Some([Lit("changeBook"), Var("oldName")]))],
      None),
    Declaration(DeleteBook,
      [VerbAttribute(Delete, Some([Lit("deleteBook"), Var("bookName")]))],
      None)
  ]

  /** The thirteen bindings the controller's documentation lists. */
  const Documented: seq<Binding> := [
    Binding(Get, [Lit("all")], GetAll),
    Binding(Post, [Lit("everything")], GetAll),
    Binding(Patch, [Lit("all")], GetAll),
    Binding(Options, [Lit("all")], GetAll),
    Binding(Get, [], GetBookFromQuery),
    Binding(Get, [Lit("take")], GetBookFromQuery),
    Binding(Get, [Lit("get")], GetBookFromQuery),
    Binding(Post, [], GetBookFromRoute),
    Binding(Get, [Lit("get"), Var("index")], GetBookFromRoute),
    Binding(Post, [Lit("bringBook")], BringBook),
    Binding(Post, [Lit("sendBook")], BringBook),
    Binding(Put, [Lit("changeBook"), Var("oldName")], ChangeBook),
    Binding(Delete, [Lit("deleteBook"), Var("bookName")], DeleteBook)
  ]

  /** One declaration per action, in source order; only `GetAll` carries a
      `Route` attribute, `[Route("all")]`, and the thirteen verb attributes
      are split 4, 3, 2, 2, 1, 1 among the actions. */
  lemma DeclarationsAsWritten()
    ensures |Declarations| == 6
    ensures forall i :: 0 <= i < 6 ==>
      Declarations[i].action == [GetAll, GetBookFromQuery, GetBookFromRoute, BringBook, ChangeBook, DeleteBook][i]
    ensures forall i :: 0 <= i < 6 ==>
      Declarations[i].route == if i == 0 then Some([Lit("all")]) else None
    ensures forall i :: 0 <= i < 6 ==> |Declarations[i].verbs| == [4, 3, 2, 2, 1, 1][i]
  {
  }

  /** The path a verb attribute binds: its own template when it has one (the
      action's `Route` is then ignored), else the action's `Route`, else the
      controller root. */
  function EffectivePattern(attr: VerbAttribute, route: Option<seq<Segment>>): seq<Segment> {
    match attr.template
    case Some(t) => t
    case None => match route { case Some(r) => r case None => [] }
  }

  /** One binding per verb attribute of `d`, in the order they are written. */
  function BindingsOf(d: Declaration, k: nat): (bs: seq<Binding>)
    requires k <= |d.verbs|
    ensures |bs| == |d.verbs| - k
    ensures forall i :: 0 <= i < |bs| ==>
      bs[i] == Binding(d.verbs[k + i].verb, EffectivePattern(d.verbs[k + i], d.route), d.action)
    decreases |d.verbs| - k
  {
    if k == |d.verbs| then []
    else [Binding(d.verbs[k].verb, EffectivePattern(d.verbs[k], d.route), d.action)] + BindingsOf(d, k + 1)
  }

  /** All bindings of a list of declarations, action by action. */
  function Bindings(ds: seq<Declaration>): seq<Binding> {
    if ds == [] then [] else BindingsOf(ds[0], 0) + Bindings(ds[1..])
  }

  /** The routing table the attributes produce. */
  function Table(): seq<Binding> {
    Bindings(Declarations)
  }

  /** Combining the attributes by the rules above yields exactly the
      documented thirteen bindings. */
  lemma TableIsDocumented()
    ensures Table() == Documented
  {
  }

  /** A path fits a pattern when they have as many segments, every literal
      segment equals the path's segment there, and every `{name}` segment
      faces a non-empty one (a required route parameter is never bound to
      the empty string). */
  predicate Fits(p: seq<Segment>, path: seq<string>) {
    |p| == |path| &&
    forall k :: 0 <= k < |p| ==> if p[k].Lit? then p[k].text == path[k] else path[k] != ""
  }

  /** The binding applies to a request with this verb and path. */
  predicate Applies(b: Binding, verb: Verb, path: seq<string>) {
    b.verb == verb && Fits(b.pattern, path)
  }

  /** The values a pattern captures from a path that fits it: each
      `{name}` segment binds `name` to the path's segment in its place (the
      leftmost one, should a name repeat). */
  function Captures(p: seq<Segment>, path: seq<string>): (c: map<string, string>)
    requires |p| == |path|
    ensures forall n :: n in c <==> Var(n) in p
    ensures forall k :: 0 <= k < |p| && p[k].Var? && Var(p[k].name) !in p[..k] ==>
      c[p[k].name] == path[k]
  {
    if p == [] then map[]
    else
      var rest := Captures(p[1..], path[1..]);
      match p[0]
      case Lit(_) => rest
      case Var(n) => rest[n := path[0]]
  }

  /** The position of the first binding of `t` that applies, if any. */
  function FirstApplying(t: seq<Binding>, verb: Verb, path: seq<string>): (r: Option<nat>)
    ensures r.Some? ==> r.value < |t| && Applies(t[r.value], verb, path)
    ensures r.Some? ==> forall j :: 0 <= j < r.value ==> !Applies(t[j], verb, path)
    ensures r.None? ==> forall j :: 0 <= j < |t| ==> !Applies(t[j], verb, path)
  {
    if t == [] then None
    else if Applies(t[0], verb, path) then Some(0)
    else
      match FirstApplying(t[1..], verb, path)
      case None => None
      case Some(k) => Some(k + 1)
  }

  /** Routes a request (verb and path below the controller route) to the
      action of the binding that applies, with its captured values;
      None when no binding applies. The table searched is the documented one,
      which `TableIsDocumented` shows the attributes produce. */
  function Match(verb: Verb, path: seq<string>): (r: Option<RouteMatch>)
    ensures r.None? <==> forall i :: 0 <= i < |Documented| ==> !Applies(Documented[i], verb, path)
    ensures r.Some? ==>
      exists i :: 0 <= i < |Documented| && Applies(Documented[i], verb, path) &&
        r.value == RouteMatch(Documented[i].action, Captures(Documented[i].pattern, path))
  {
    match FirstApplying(Documented, verb, path)
    case None => None
    case Some(i) => Some(RouteMatch(Documented[i].action, Captures(Documented[i].pattern, path)))
  }

  /** Two segments no path segment can fit at once: two different literals. */
  predicate Clash(a: Segment, b: Segment) {
    a.Lit? && b.Lit? && a.text != b.text
  }

  /** No path fits both patterns: their lengths differ or, somewhere, their
      literals clash. */
  predicate Disjoint(p: seq<Segment>, q: seq<Segment>) {
    |p| != |q| || exists k :: 0 <= k < |p| && Clash(p[k], q[k])
  }

  /** Disjoint patterns share no path. */
  lemma DisjointShareNoPath(p: seq<Segment>, q: seq<Segment>, path: seq<string>)
    requires Disjoint(p, q)
    ensures !(Fits(p, path) && Fits(q, path))
  {
    if |p| == |q| == |path| {
      var k :| 0 <= k < |p| && Clash(p[k], q[k]);
      assert p[k].text != q[k].text;
    }
  }

  /** Any two documented bindings of the same verb have disjoint patterns. */
  lemma DocumentedDisjoint(i: nat, j: nat)
    requires i < j < |Documented| && Documented[i].verb == Documented[j].verb
    ensures Disjoint(Documented[i].pattern, Documented[j].pattern)
  {
    var p, q := Documented[i].pattern, Documented[j].pattern;
    assert i == 0 || i == 1 || i == 2 || i == 3 || i == 4 || i == 5 || i == 6 ||
           i == 7 || i == 8 || i == 9 || i == 10 || i == 11;
    if |p| == |q| {
      assert Clash(p[0], q[0]);
    }
  }

  /** No two bindings of one verb have patterns that a single path fits, so a
      request is matched by at most one binding. */
  lemma NoOverlap(verb: Verb, path: seq<string>, i: nat, j: nat)
    requires i < |Documented| && j < |Documented|
    requires Applies(Documented[i], verb, path) && Applies(Documented[j], verb, path)
    ensures i == j
  {
    if i < j {
      DocumentedDisjoint(i, j);
      DisjointShareNoPath(Documented[i].pattern, Documented[j].pattern, path);
    } else if j < i {
      DocumentedDisjoint(j, i);
      DisjointShareNoPath(Documented[j].pattern, Documented[i].pattern, path);
    }
  }

  /** Whichever binding applies to a request is the one routing picks: the
      table has no order-dependent ties. */
  lemma MatchComplete(verb: Verb, path: seq<string>, i: nat)
    requires i < |Documented| && Applies(Documented[i], verb, path)
    ensures Match(verb, path) == Some(RouteMatch(Documented[i].action, Captures(Documented[i].pattern, path)))
  {
    var k := FirstApplying(Documented, verb, path).value;
    NoOverlap(verb, path, k, i);
  }

  /** Which documented bindings each verb has. */
  lemma BindingsOfVerb(i: nat)
    requires i < |Documented|
    ensures Documented[i].verb == Get <==> i in {0, 4, 5, 6, 8}
    ensures Documented[i].verb == Post <==> i in {1, 7, 9, 10}
    ensures Documented[i].verb == Patch <==> i == 2
    ensures Documented[i].verb == Options <==> i == 3
    ensures Documented[i].verb == Put <==> i == 11
    ensures Documented[i].verb == Delete <==> i == 12
  {
  }

  /** A binding of another verb, another length or another first literal
      does not apply, nor does a `{name}` second segment facing an empty
      one. */
  lemma NotApplying(verb: Verb, path: seq<string>, b: Binding)
    requires b.verb != verb || |b.pattern| != |path| ||
             (0 < |path| && b.pattern[0].Lit? && b.pattern[0].text != path[0]) ||
             (|path| == 2 && |b.pattern| == 2 && b.pattern[1].Var? && path[1] == "")
    ensures !Applies(b, verb, path)
  {
    if b.verb == verb && |b.pattern| == |path| && 0 < |path| {
      if b.pattern[0].Lit? && b.pattern[0].text != path[0] {
        assert !Fits(b.pattern, path) by {
          assert b.pattern[0].text != path[0];
        }
      } else {
        assert !Fits(b.pattern, path) by {
          assert path[1] == "";
        }
      }
    }
  }

  /** The routes as the controller's comments describe them, written out
      request shape by request shape: GET and POST on the root, the one-segment
      literals, and the three two-segment templates with their `{name}`
      capture of a non-empty second segment. */
  function Described(verb: Verb, path: seq<string>): Option<RouteMatch> {
    if path == [] then
      if verb == Get then Some(RouteMatch(GetBookFromQuery, map[]))
      else if verb == Post then Some(RouteMatch(GetBookFromRoute, map[]))
      else None
    else if |path| == 1 then
      var s := path[0];
      if s == "all" && verb in {Get, Patch, Options} then Some(RouteMatch(GetAll, map[]))
      else if s == "everything" && verb == Post then Some(RouteMatch(GetAll, map[]))
      else if (s == "take" || s == "get") && verb == Get then Some(RouteMatch(GetBookFromQuery, map[]))
      else if (s == "bringBook" || s == "sendBook") && verb == Post then Some(RouteMatch(BringBook, map[]))
      else None
    else if |path| == 2 && path[1] != "" then
      if path[0] == "get" && verb == Get then
        Some(RouteMatch(GetBookFromRoute, map["index" := path[1]]))
      else if path[0] == "changeBook" && verb == Put then
        Some(RouteMatch(ChangeBook, map["oldName" := path[1]]))
      else if path[0] == "deleteBook" && verb == Delete then
        Some(RouteMatch(DeleteBook, map["bookName" := path[1]]))
      else None
    else None
  }

  /** When no documented binding applies, nothing is routed. */
  lemma Unrouted(verb: Verb, path: seq<string>)
    requires forall i :: 0 <= i < |Documented| ==> !Applies(Documented[i], verb, path)
    ensures Match(verb, path).None?
  {
  }

  /** Routing the root agrees with the description. */
  lemma MatchRoot(verb: Verb)
    ensures Match(verb, []) == Described(verb, [])
  {
    if verb == Get {
      MatchComplete(verb, [], 4);
    } else if verb == Post {
      MatchComplete(verb, [], 7);
    } else {
      forall i | 0 <= i < |Documented| ensures !Applies(Documented[i], verb, []) {
        BindingsOfVerb(i);
      }
      Unrouted(verb, []);
    }
  }

  /** The one-segment paths the description routes are routed so. */
  lemma OneSegmentRouted(verb: Verb, path: seq<string>)
    requires |path| == 1 && Described(verb, path).Some?
    ensures Match(verb, path) == Described(verb, path)
  {
    var s := path[0];
    var i :=
      if s == "all" then (if verb == Get then 0 else if verb == Patch then 2 else 3)
      else if s == "everything" then 1
      else if s == "take" then 5
      else if s == "get" then 6
      else if s == "bringBook" then 9
      else 10;
    MatchComplete(verb, path, i);
  }

  /** Routing a one-segment path agrees with the description. */
  lemma MatchOneSegment(verb: Verb, path: seq<string>)
    requires |path| == 1
    ensures Match(verb, path) == Described(verb, path)
  {
    if Described(verb, path).Some? {
      OneSegmentRouted(verb, path);
    } else {
      forall i | 0 <= i < |Documented| ensures !Applies(Documented[i], verb, path) {
        BindingsOfVerb(i);
        NotApplying(verb, path, Documented[i]);
      }
      Unrouted(verb, path);
    }
  }

  /** The single `{name}` segment of a two-segment template captures the
      path's second segment under its name and nothing else. */
  lemma CaptureSecond(p: seq<Segment>, path: seq<string>)
    requires |p| == |path| == 2 && p[0].Lit? && p[1].Var?
    ensures Captures(p, path) == map[p[1].name := path[1]]
  {
    assert Captures(p, path).Keys == {p[1].name};
  }

  /** Routing a two-segment path agrees with the description. */
  lemma MatchTwoSegments(verb: Verb, path: seq<string>)
    requires |path| == 2
    ensures Match(verb, path) == Described(verb, path)
  {
    if path[1] == "" {
      forall i | 0 <= i < |Documented| ensures !Applies(Documented[i], verb, path) {
        BindingsOfVerb(i);
        NotApplying(verb, path, Documented[i]);
      }
      Unrouted(verb, path);
    } else if path[0] == "get" && verb == Get {
      MatchComplete(verb, path, 8);
      CaptureSecond(Documented[8].pattern, path);
    } else if path[0] == "changeBook" && verb == Put {
      MatchComplete(verb, path, 11);
      CaptureSecond(Documented[11].pattern, path);
    } else if path[0] == "deleteBook" && verb == Delete {
      MatchComplete(verb, path, 12);
      CaptureSecond(Documented[12].pattern, path);
    } else {
      forall i | 0 <= i < |Documented| ensures !Applies(Documented[i], verb, path) {
        BindingsOfVerb(i);
        NotApplying(verb, path, Documented[i]);
      }
      Unrouted(verb, path);
    }
  }

  /** The attribute table routes every request exactly as described: the
      verb is part of the key, a template given on the verb attribute
      overrides `Route`, and `{name}` segments take any value. */
  lemma MatchIsDescribed(verb: Verb, path: seq<string>)
    ensures Match(verb, path) == Described(verb, path)
  {
    if |path| == 0 {
      MatchRoot(verb);
    } else if |path| == 1 {
      MatchOneSegment(verb, path);
    } else if |path| == 2 {
      MatchTwoSegments(verb, path);
    } else {
      forall i | 0 <= i < |Documented| ensures !Applies(Documented[i], verb, path) {
        BindingsOfVerb(i);
      }
      Unrouted(verb, path);
    }
  }

  /** A DELETE is routed exactly when its path is `deleteBook/{bookName}`
      with a non-empty second segment, and then the captured values hold
      exactly `bookName`, bound to that segment. */
  lemma DeleteBookRoute(path: seq<string>)
    ensures |path| == 2 && path[0] == "deleteBook" && path[1] != "" ==>
      Match(Delete, path) == Some(RouteMatch(DeleteBook, map["bookName" := path[1]]))
    ensures !(|path| == 2 && path[0] == "deleteBook" && path[1] != "") ==> Match(Delete, path).None?
  {
    MatchIsDescribed(Delete, path);
  }
}
