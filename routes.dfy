/**
 * The route table of `src/App.jsx` and its `ProtectedRoute` guard. A path
 * is cut into its non-empty `/`-separated segments and matched against each
 * pattern, where `:name` matches any one segment and binds it; the element
 * of the matching route is then rendered, guarded or a redirect.
 */
module Routes {
  import opened Wrappers
  import opened Strings
  import opened Http

  datatype View =
    | AdminLogin | AdminDashboard | AdminOrders | OrderDetails | AdminProducts | AddProduct
    | EditProduct | AdminCustomers | AdminBlogs | AddBlog | Discounts | ShippingMethods | AdminSettings

  /** A route's element: a bare page, a page inside `ProtectedRoute` and the layout, or `<Navigate>`. */
  datatype Element = Page(view: View) | Guarded(view: View) | NavigateTo(target: string)

  datatype Seg = Lit(text: string) | Param(name: string)

  datatype Route = Route(pattern: seq<Seg>, element: Element)

  /** What the router shows for a location. `NoMatch` renders nothing: there is no catch-all route. */
  datatype Outcome = Render(view: View, params: map<string, string>) | Redirect(target: string) | NoMatch

  /** `ProtectedRoute`: the children when a truthy token is stored, otherwise a redirect to the login page. */
  function ProtectedRoute(storage: map<string, string>, view: View, params: map<string, string>): (o: Outcome)
    ensures o == Render(view, params) <==> HasToken(storage)
    ensures o == Redirect(LoginPath) <==> !HasToken(storage)
  {
    if HasToken(storage) then Render(view, params) else Redirect(LoginPath)
  }

  /** The `<Routes>` table, in source order. */
  const Table: seq<Route> := [
    Route([Lit("admin"), Lit("login")], Page(AdminLogin)),                          // /admin/login
    Route([Lit("admin")], Guarded(AdminDashboard)),                                 // /admin
    Route([Lit("admin"), Lit("dashboard")], Guarded(AdminDashboard)),               // /admin/dashboard
    Route([Lit("admin"), Lit("orders")], Guarded(AdminOrders)),                     // /admin/orders
    Route([Lit("admin"), Lit("orders"), Param("orderId")], Guarded(OrderDetails)),  // /admin/orders/:orderId
    Route([Lit("admin"), Lit("products")], Guarded(AdminProducts)),                 // /admin/products
    Route([Lit("admin"), Lit("add-product")], Guarded(AddProduct)),                 // /admin/add-product
    Route([Lit("admin"), Lit("edit-product"), Param("id")], Guarded(EditProduct)),  // /admin/edit-product/:id
    Route([Lit("admin"), Lit("customers")], Guarded(AdminCustomers)),               // /admin/customers
    Route([Lit("admin"), Lit("blogs")], Guarded(AdminBlogs)),                       // /admin/blogs
    Route([Lit("admin"), Lit("add-blog")], Guarded(AddBlog)),                       // /admin/add-blog
    Route([Lit("admin"), Lit("discounts")], Guarded(Discounts)),                    // /admin/discounts
    Route([Lit("admin"), Lit("shipping-methods")], Guarded(ShippingMethods)),       // /admin/shipping-methods
    Route([Lit("admin"), Lit("settings")], Guarded(AdminSettings)),                 // /admin/settings
    Route([], NavigateTo(LoginPath))                                                // /
  ]

  const LoginPattern: seq<Seg> := [Lit("admin"), Lit("login")]

  /** The non-empty pieces of a list of segments. */
  function NonEmpty(parts: seq<string>): (r: seq<string>)
    ensures forall k :: 0 <= k < |r| ==> r[k] != "" && r[k] in parts
    ensures |r| <= |parts|
  {
    if parts == [] then []
    else if parts[0] == "" then NonEmpty(parts[1..])
    else [parts[0]] + NonEmpty(parts[1..])
  }

  /** The segments of a location path. */
  function Segments(path: string): (segs: seq<string>)
    ensures forall k :: 0 <= k < |segs| ==> segs[k] != "" && '/' !in segs[k]
  {
    SplitPiecesFree(path, '/');
    NonEmpty(Split(path, '/'))
  }

  /**
   * Matches a pattern against segments, binding every `:name`; `None` when it
   * does not match. A pattern matches exactly the segments of its length whose
   * literals agree; each parameter is bound to its segment (the first
   * occurrence of a repeated name wins) and nothing else is bound.
   */
  function Match(p: seq<Seg>, segs: seq<string>): (m: Option<map<string, string>>)
    ensures m.Some? <==> |p| == |segs| && forall k :: 0 <= k < |p| && p[k].Lit? ==> segs[k] == p[k].text
  {
    if |p| != |segs| then None
    else if p == [] then Some(map[])
    else
      var rest := Match(p[1..], segs[1..]);
      match p[0]
      case Lit(t) => if t == segs[0] then rest else None
      case Param(n) => if rest.Some? then Some(rest.value[n := segs[0]]) else None
  }

  /**
   * What a match binds: every parameter of the pattern, to its own segment
   * (the first occurrence of a repeated name wins), and nothing else.
   */
  lemma {:induction false} MatchBinds(p: seq<Seg>, segs: seq<string>)
    requires Match(p, segs).Some?
    ensures forall k :: 0 <= k < |p| && p[k].Param? ==> p[k].name in Match(p, segs).value
    ensures forall k :: 0 <= k < |p| && p[k].Param? && p[k] !in p[..k] ==> Match(p, segs).value[p[k].name] == segs[k]
    ensures forall n :: n in Match(p, segs).value ==> Param(n) in p
    decreases |p|
  {
    if p != [] {
      MatchBinds(p[1..], segs[1..]);
      var rest := Match(p[1..], segs[1..]).value;
      var m := Match(p, segs).value;
      assert m == if p[0].Param? then rest[p[0].name := segs[0]] else rest;
      forall k | 0 <= k < |p| && p[k].Param?
        ensures p[k].name in m
      {
        if k > 0 {
          assert p[1..][k - 1] == p[k];
        }
      }
      forall k | 0 <= k < |p| && p[k].Param? && p[k] !in p[..k]
        ensures m[p[k].name] == segs[k]
      {
        if k > 0 {
          assert p[1..][k - 1] == p[k];
          assert p[1..][..k - 1] == p[1..k];
          assert p[0] in p[..k];
          assert segs[1..][k - 1] == segs[k];
        }
      }
      forall n | n in m
        ensures Param(n) in p
      {
        if n in rest {
          assert Param(n) in p[1..];
        }
      }
    }
  }

  /** The first route of `routes` whose pattern matches, with its bindings. */
  function FirstMatch(routes: seq<Route>, segs: seq<string>): (r: Option<(Route, map<string, string>)>)
    ensures r.Some? ==> r.value.0 in routes && Match(r.value.0.pattern, segs) == Some(r.value.1)
    ensures r.None? ==> forall k :: 0 <= k < |routes| ==> Match(routes[k].pattern, segs).None?
  {
    if routes == [] then None
    else
      var m := Match(routes[0].pattern, segs);
      if m.Some? then Some((routes[0], m.value)) else FirstMatch(routes[1..], segs)
  }

  /** What an element shows. */
  function Show(e: Element, storage: map<string, string>, params: map<string, string>): (o: Outcome)
    ensures o != NoMatch
    ensures o.Render? ==> !e.NavigateTo? && o.view == e.view && o.params == params && (e.Guarded? ==> HasToken(storage))
    ensures o.Redirect? ==>
      (e.NavigateTo? && o.target == e.target) || (e.Guarded? && o.target == LoginPath && !HasToken(storage))
  {
    match e
    case Page(v) => Render(v, params)
    case Guarded(v) => ProtectedRoute(storage, v, params)
    case NavigateTo(t) => Redirect(t)
  }

  /** What the router shows for `path` with `storage` as the stored state. */
  function Resolve(path: string, storage: map<string, string>): (o: Outcome)
    ensures o == NoMatch <==> forall k :: 0 <= k < |Table| ==> Match(Table[k].pattern, Segments(path)).None?
  {
    match FirstMatch(Table, Segments(path))
    case None => NoMatch
    case Some((route, params)) => Show(route.element, storage, params)
  }

  /** '/admin/login' is the only route whose element is rendered without the guard. */
  lemma OnlyLoginUnguarded()
    ensures forall k :: 0 <= k < |Table| ==> (Table[k].element.Page? <==> Table[k].pattern == LoginPattern)
    ensures Table[0] == Route(LoginPattern, Page(AdminLogin))
  {
  }

  /** The only parameterised patterns are '/admin/orders/:orderId' and '/admin/edit-product/:id'. */
  lemma ParamRoutes()
    ensures forall k, j :: 0 <= k < |Table| && 0 <= j < |Table[k].pattern| && Table[k].pattern[j].Param? ==> k == 4 || k == 7
    ensures Table[4].pattern[2] == Param("orderId") && Table[7].pattern[2] == Param("id")
  {
  }

  /** No list of segments matches both patterns: the lengths differ, or some position holds two different literals. */
  predicate Clash(p: seq<Seg>, q: seq<Seg>)
    decreases |p|
  {
    |p| != |q|
    || (p != [] && ((p[0].Lit? && q[0].Lit? && p[0].text != q[0].text) || Clash(p[1..], q[1..])))
  }

  lemma {:induction false} ClashExcludes(p: seq<Seg>, q: seq<Seg>, segs: seq<string>)
    requires Clash(p, q)
    ensures !(Match(p, segs).Some? && Match(q, segs).Some?)
    decreases |p|
  {
    if |p| == |q| && |p| == |segs| && p != [] && !(p[0].Lit? && q[0].Lit? && p[0].text != q[0].text) {
      ClashExcludes(p[1..], q[1..], segs[1..]);
    }
  }

  /** Any two routes of the table clash; in particular no two share a pattern. */
  lemma TableClashes()
    ensures forall i, j :: 0 <= i < j < |Table| ==> Clash(Table[i].pattern, Table[j].pattern)
  {
  }

  /** At most one route matches any location, so the order of the table does not matter. */
  lemma NoOverlap(segs: seq<string>)
    ensures forall i, j :: 0 <= i < j < |Table| ==>
      !(Match(Table[i].pattern, segs).Some? && Match(Table[j].pattern, segs).Some?)
  {
    TableClashes();
    forall i, j | 0 <= i < j < |Table|
      ensures !(Match(Table[i].pattern, segs).Some? && Match(Table[j].pattern, segs).Some?)
    {
      ClashExcludes(Table[i].pattern, Table[j].pattern, segs);
    }
  }

  lemma {:induction false} FirstMatchAt(routes: seq<Route>, segs: seq<string>, i: nat)
    requires i < |routes| && Match(routes[i].pattern, segs).Some?
    requires forall k :: 0 <= k < i ==> Match(routes[k].pattern, segs).None?
    ensures FirstMatch(routes, segs) == Some((routes[i], Match(routes[i].pattern, segs).value))
    decreases i
  {
    if i > 0 {
      FirstMatchAt(routes[1..], segs, i - 1);
    }
  }

  /** The route a location resolves to is the one route of the table whose pattern matches it. */
  lemma ResolveAt(path: string, storage: map<string, string>, i: nat)
    requires i < |Table| && Match(Table[i].pattern, Segments(path)).Some?
    ensures Resolve(path, storage) == Show(Table[i].element, storage, Match(Table[i].pattern, Segments(path)).value)
  {
    NoOverlap(Segments(path));
    FirstMatchAt(Table, Segments(path), i);
  }

  /** A view other than the login page is never rendered unless a truthy token is stored. */
  lemma GuardedViewsNeedToken(path: string, storage: map<string, string>)
    ensures Resolve(path, storage).Render? && Resolve(path, storage).view != AdminLogin ==> HasToken(storage)
  {
    var r := FirstMatch(Table, Segments(path));
    if r.Some? {
      OnlyLoginUnguarded();
    }
  }

  /** '/' redirects to the login page whatever is stored. */
  lemma RootRedirects(storage: map<string, string>)
    ensures Resolve("/", storage) == Redirect(LoginPath)
  {
    assert Split("/", '/') == ["", ""];
    assert Segments("/") == [];
    ResolveAt("/", storage, 14);
  }

  lemma {:induction false} NonEmptyAppend(xs: seq<string>, ys: seq<string>)
    ensures NonEmpty(xs + ys) == NonEmpty(xs) + NonEmpty(ys)
  {
    if xs != [] {
      assert (xs + ys)[1..] == xs[1..] + ys;
      NonEmptyAppend(xs[1..], ys);
    } else {
      assert xs + ys == ys;
    }
  }

  /** Adding `/seg` to a path adds one segment, when `seg` is non-empty and holds no '/'. */
  lemma AppendSegment(path: string, seg: string)
    requires seg != "" && '/' !in seg
    ensures Segments(path + "/" + seg) == Segments(path) + [seg]
  {
    assert path + "/" + seg == path + ['/'] + seg;
    SplitAround(path, '/', seg);
    SplitFree(seg, '/');
    NonEmptyAppend(Split(path, '/'), [seg]);
    assert NonEmpty([seg]) == [seg];
  }

  lemma EmptySegments()
    ensures Segments("") == []
  {
  }

  /** The segments of '/a', '/a/b' and '/a/b/c'. */
  lemma Segments1(a: string)
    requires a != "" && '/' !in a
    ensures Segments("/" + a) == [a]
  {
    AppendSegment("", a);
    assert "" + "/" + a == "/" + a;
  }

  lemma Segments2(a: string, b: string)
    requires a != "" && '/' !in a && b != "" && '/' !in b
    ensures Segments("/" + a + "/" + b) == [a, b]
  {
    Segments1(a);
    AppendSegment("/" + a, b);
  }

  lemma Segments3(a: string, b: string, c: string)
    requires a != "" && '/' !in a && b != "" && '/' !in b && c != "" && '/' !in c
    ensures Segments("/" + a + "/" + b + "/" + c) == [a, b, c]
  {
    Segments2(a, b);
    AppendSegment("/" + a + "/" + b, c);
  }

  /** A pattern of literals matches exactly its own texts, binding nothing. */
  lemma {:induction false} MatchLiterals(p: seq<Seg>, segs: seq<string>)
    requires |p| == |segs| && forall k :: 0 <= k < |p| ==> p[k] == Lit(segs[k])
    ensures Match(p, segs) == Some(map[])
  {
    if p != [] {
      MatchLiterals(p[1..], segs[1..]);
    }
  }

  /** A location whose segments are those of a literal route shows that route's element. */
  lemma ResolveLiteral(path: string, storage: map<string, string>, i: nat)
    requires i < |Table| && |Table[i].pattern| == |Segments(path)|
    requires forall k :: 0 <= k < |Segments(path)| ==> Table[i].pattern[k] == Lit(Segments(path)[k])
    ensures Resolve(path, storage) == Show(Table[i].element, storage, map[])
  {
    MatchLiterals(Table[i].pattern, Segments(path));
    ResolveAt(path, storage, i);
  }

  lemma AdminAt(path: string, storage: map<string, string>)
    requires Segments(path) == ["admin"]
    ensures Resolve(path, storage) == ProtectedRoute(storage, AdminDashboard, map[])
  {
    assert Table[1].pattern == [Lit("admin")];
    ResolveLiteral(path, storage, 1);
  }

  lemma DashboardAt(path: string, storage: map<string, string>)
    requires Segments(path) == ["admin", "dashboard"]
    ensures Resolve(path, storage) == ProtectedRoute(storage, AdminDashboard, map[])
  {
    assert Table[2].pattern == [Lit("admin"), Lit("dashboard")];
    ResolveLiteral(path, storage, 2);
  }

  /** '/admin' and '/admin/dashboard' show the same thing. */
  lemma AdminIsDashboard(storage: map<string, string>)
    ensures Resolve("/admin", storage) == Resolve("/admin/dashboard", storage)
    ensures Resolve("/admin", storage) == ProtectedRoute(storage, AdminDashboard, map[])
  {
    Segments1("admin");
    assert "/admin" == "/" + "admin";
    Segments2("admin", "dashboard");
    assert "/admin/dashboard" == "/" + "admin" + "/" + "dashboard";
    AdminAt("/admin", storage);
    DashboardAt("/admin/dashboard", storage);
  }

  lemma OrderPath(path: string, id: string, storage: map<string, string>)
    requires Segments(path) == ["admin", "orders", id]
    ensures Resolve(path, storage) == ProtectedRoute(storage, OrderDetails, map["orderId" := id])
  {
    var p := Table[4].pattern;
    var segs := Segments(path);
    assert Match(p[2..], segs[2..]) == Some(map["orderId" := id]) by {
      assert Match(p[3..], segs[3..]) == Some(map[]);
    }
    assert Match(p[1..], segs[1..]) == Some(map["orderId" := id]);
    ResolveAt(path, storage, 4);
  }

  /** '/admin/orders/:orderId' renders the order details with the id bound, behind the guard. */
  lemma OrderDetailsRoute(id: string, storage: map<string, string>)
    requires id != "" && '/' !in id
    ensures Resolve("/admin/orders/" + id, storage) == ProtectedRoute(storage, OrderDetails, map["orderId" := id])
  {
    Segments3("admin", "orders", id);
    assert "/admin/orders/" + id == "/" + "admin" + "/" + "orders" + "/" + id;
    OrderPath("/admin/orders/" + id, id, storage);
  }

  /** No pattern of the table has more than three segments, so no longer location is routed. */
  lemma LongPathsUnrouted(path: string, storage: map<string, string>)
    requires |Segments(path)| > 3
    ensures Resolve(path, storage) == NoMatch
  {
    assert forall k :: 0 <= k < |Table| ==> |Table[k].pattern| <= 3;
  }

  lemma Segments4(a: string, b: string, c: string, d: string)
    requires a != "" && '/' !in a && b != "" && '/' !in b && c != "" && '/' !in c && d != "" && '/' !in d
    ensures Segments("/" + a + "/" + b + "/" + c + "/" + d) == [a, b, c, d]
  {
    Segments3(a, b, c);
    AppendSegment("/" + a + "/" + b + "/" + c, d);
  }

  /** The link of the blog list's "Add New Blog" button, as written. */
  const BlogsAddLink := "/admin/blogs/add"

  /** The location of the blog editor's route. */
  const AddBlogPath := "/admin/add-blog"

  lemma ThreeSegmentRoutes()
    ensures forall k :: 0 <= k < |Table| && |Table[k].pattern| == 3 ==> k == 4 || k == 7
    ensures Table[4].pattern[1] == Lit("orders") && Table[7].pattern[1] == Lit("edit-product")
  {
  }

  lemma Unrouted(path: string, storage: map<string, string>)
    requires Segments(path) == ["admin", "blogs", "add"]
    ensures Resolve(path, storage) == NoMatch
  {
    var segs := Segments(path);
    ThreeSegmentRoutes();
    assert forall k :: 0 <= k < |Table| ==> Match(Table[k].pattern, segs).None?;
  }

  lemma AddBlogAt(path: string, storage: map<string, string>)
    requires Segments(path) == ["admin", "add-blog"]
    ensures Resolve(path, storage) == ProtectedRoute(storage, AddBlog, map[])
  {
    assert Table[10].pattern == [Lit("admin"), Lit("add-blog")];
    ResolveLiteral(path, storage, 10);
  }

  /** No route matches the "Add New Blog" link, so following it renders nothing. */
  lemma BlogsAddLinkIsUnrouted(storage: map<string, string>)
    ensures Resolve(BlogsAddLink, storage) == NoMatch
  {
    Segments3("admin", "blogs", "add");
    assert BlogsAddLink == "/" + "admin" + "/" + "blogs" + "/" + "add";
    Unrouted(BlogsAddLink, storage);
  }

  /** The blog editor's own location renders it behind the guard. */
  lemma AddBlogPathRenders(storage: map<string, string>)
    ensures Resolve(AddBlogPath, storage) == ProtectedRoute(storage, AddBlog, map[])
  {
    Segments2("admin", "add-blog");
    assert AddBlogPath == "/" + "admin" + "/" + "add-blog";
    AddBlogAt(AddBlogPath, storage);
  }
}
