/**
 * The dashboard, `src/admin/AdminDashboard.jsx`: three reports fetched one
 * after the other, merged into one record of counts and lists, with an
 * error text when any step fails.
 */
module AdminDashboard {
  import opened Wrappers
  import opened Js
  import opened Http
  import opened Endpoints
  import opened Browser
  import opened Views
  import ApiClient

  const DefaultError := "Failed to fetch dashboard data"
  const LoadFailedToast := "Failed to load dashboard data"

  const CountKeys: set<string> := {"totalOrders", "totalProducts", "totalCustomers"}
  const ListKeys: set<string> := {"recentOrders", "lowStockProducts"}

  /** The record the page starts with: zero counts, empty lists. */
  const InitialStats: Value := Obj(map[
    "totalOrders" := Num(0), "totalProducts" := Num(0), "totalCustomers" := Num(0),
    "recentOrders" := Arr([]), "lowStockProducts" := Arr([])])

  /**
   * The merged record: each count of the stats report, 0 where it is falsy
   * or missing; each list, `[]` where its report is falsy.
   */
  function NewStats(statsData: Value, recentData: Value, lowData: Value): (s: Value)
    ensures s.Obj? && s.fields.Keys == CountKeys + ListKeys
    ensures forall k :: k in CountKeys ==> Get(s, k) == (if Truthy(Get(statsData, k)) then Get(statsData, k) else Num(0))
    ensures Get(s, "recentOrders") == (if Truthy(recentData) then recentData else Arr([]))
    ensures Get(s, "lowStockProducts") == (if Truthy(lowData) then lowData else Arr([]))
  {
    Obj(map[
      "totalOrders" := Or(Get(statsData, "totalOrders"), Num(0)),
      "totalProducts" := Or(Get(statsData, "totalProducts"), Num(0)),
      "totalCustomers" := Or(Get(statsData, "totalCustomers"), Num(0)),
      "recentOrders" := Or(recentData, Arr([])),
      "lowStockProducts" := Or(lowData, Arr([]))])
  }

  /** No count or list of the merged record is ever falsy, whatever the reports hold. */
  lemma NewStatsTruthy(statsData: Value, recentData: Value, lowData: Value)
    ensures forall k :: k in ListKeys ==> Truthy(Get(NewStats(statsData, recentData, lowData), k))
    ensures forall k :: k in CountKeys ==> Get(NewStats(statsData, recentData, lowData), k) != Undefined
  {
  }

  /** The exchanges a load makes: the three reports in order, stopping after the first that fails. */
  function Exchanges(statsReply: Reply, recentReply: Reply, lowReply: Reply): (xs: seq<Exchange>)
    ensures 1 <= |xs| <= 3
    ensures xs[0] == Exchange(DashboardApi(GetStats), statsReply)
    ensures |xs| >= 2 <==> statsReply.Ok?
    ensures |xs| == 3 <==> statsReply.Ok? && recentReply.Ok?
    ensures |xs| >= 2 ==> xs[1] == Exchange(DashboardApi(GetRecentOrders), recentReply)
    ensures |xs| == 3 ==> xs[2] == Exchange(DashboardApi(GetLowStockProducts), lowReply)
  {
    var x1 := Exchange(DashboardApi(GetStats), statsReply);
    var x2 := Exchange(DashboardApi(GetRecentOrders), recentReply);
    var x3 := Exchange(DashboardApi(GetLowStockProducts), lowReply);
    if statsReply.Failed? then [x1] else if recentReply.Failed? then [x1, x2] else [x1, x2, x3]
  }

  /** How a load ends: the merged record, or the error the `catch` receives. */
  datatype Load = Loaded(stats: Value) | LoadFailed(error: HttpError)

  /**
   * The outcome of a load. The first failing report is the error; when all
   * three succeed but the stats report is `null` or `undefined`, reading its
   * counts throws a TypeError, an error without a response.
   */
  function LoadOf(statsReply: Reply, recentReply: Reply, lowReply: Reply): (o: Load)
    ensures o.Loaded? <==> statsReply.Ok? && recentReply.Ok? && lowReply.Ok? && !IsNullish(statsReply.data)
    ensures o.Loaded? ==> o.stats == NewStats(statsReply.data, recentReply.data, lowReply.data)
    ensures statsReply.Failed? ==> o == LoadFailed(statsReply.error)
    ensures statsReply.Ok? && recentReply.Failed? ==> o == LoadFailed(recentReply.error)
    ensures statsReply.Ok? && recentReply.Ok? && lowReply.Failed? ==> o == LoadFailed(lowReply.error)
    ensures statsReply.Ok? && recentReply.Ok? && lowReply.Ok? && IsNullish(statsReply.data) ==> o == LoadFailed(HttpError(None))
  {
    if statsReply.Failed? then LoadFailed(statsReply.error)
    else if recentReply.Failed? then LoadFailed(recentReply.error)
    else if lowReply.Failed? then LoadFailed(lowReply.error)
    else if IsNullish(statsReply.data) then LoadFailed(HttpError(None))
    else Loaded(NewStats(statsReply.data, recentReply.data, lowReply.data))
  }

  /** `err.response?.data?.message || 'Failed to fetch dashboard data'`: never falsy. */
  function ErrorText(e: HttpError): (v: Value)
    ensures Truthy(v)
    ensures Truthy(ServerMessage(e)) ==> v == ServerMessage(e)
    ensures !Truthy(ServerMessage(e)) ==> v == Str(DefaultError)
  {
    Or(ServerMessage(e), Str(DefaultError))
  }

  /** What the page renders, checked in this order: the spinner, the error text, the dashboard. */
  datatype Screen = Spinner | ErrorMessage(text: Value) | Dashboard(stats: Value)

  function ScreenOf(loading: bool, error: Value, stats: Value): (s: Screen)
    ensures s.Spinner? <==> loading
    ensures s.ErrorMessage? <==> !loading && Truthy(error)
    ensures s.Dashboard? <==> !loading && !Truthy(error)
  {
    if loading then Spinner else if Truthy(error) then ErrorMessage(error) else Dashboard(stats)
  }

  /** Every failed load, however it failed, ends on the error text rather than the dashboard. */
  lemma FailedLoadShowsError(statsReply: Reply, recentReply: Reply, lowReply: Reply, stats: Value)
    requires LoadOf(statsReply, recentReply, lowReply).LoadFailed?
    ensures ScreenOf(false, ErrorText(LoadOf(statsReply, recentReply, lowReply).error), stats).ErrorMessage?
  {
  }

  /** A stats report that is `null` shows the default text, after all three reports were requested. */
  lemma NullStatsShowDefault(recentData: Value, lowData: Value)
    ensures |Exchanges(Ok(Null), Ok(recentData), Ok(lowData))| == 3
    ensures ErrorText(LoadOf(Ok(Null), Ok(recentData), Ok(lowData)).error) == Str(DefaultError)
  {
  }

  /** `stats.<list>.length > 0`: the table is drawn, otherwise the "no data" placeholder. */
  function HasRows(list: Value): (r: bool)
    ensures list.Arr? ==> (r <==> |list.items| > 0)
    ensures list.Bool? || list.Num? ==> !r
  {
    match Get(list, "length")
    case Num(n) => n > 0
    case _ => false
  }

  /** A load whose list report is falsy shows that list's placeholder. */
  lemma FalsyListShowsPlaceholder(statsData: Value, recentData: Value, lowData: Value)
    requires !Truthy(recentData)
    ensures !HasRows(Get(NewStats(statsData, recentData, lowData), "recentOrders"))
  {
  }

  const Green := "bg-green-100 text-green-800"
  const Yellow := "bg-yellow-100 text-yellow-800"
  const Red := "bg-red-100 text-red-800"

  /** A recent order's badge: green when completed, yellow when pending, red for every other value. */
  function StatusColor(status: Value): (c: string)
    ensures c == Green <==> status == Str("completed")
    ensures c == Yellow <==> status == Str("pending")
    ensures c == Red <==> status != Str("completed") && status != Str("pending")
  {
    if status == Str("completed") then Green else if status == Str("pending") then Yellow else Red
  }

  class AdminDashboardPage {
    var stats: Value
    var loading: bool
    var error: Value

    constructor ()
      ensures stats == InitialStats && loading && error == Str("")
    {
      stats := InitialStats;
      loading := true;
      error := Str("");
    }

    function Screen(): Screen
      reads this
    {
      ScreenOf(loading, error, stats)
    }

    /**
     * `fetchDashboardData`: the three reports in order, stopping at the
     * first failure. A full load replaces the record; a failed one keeps it,
     * sets the error text and adds a toast. `loading` is false afterwards.
     */
    method FetchDashboardData(b: Browser, statsReply: Reply, recentReply: Reply, lowReply: Reply) returns (pending: bool)
      modifies this`stats, this`loading, this`error, b`storage, b`location, b`requests, b`toasts
      ensures pending && !loading
      ensures b.Net() == ApiClient.Run(old(b.Net()), Exchanges(statsReply, recentReply, lowReply))
      ensures LoadOf(statsReply, recentReply, lowReply).Loaded? ==>
        stats == LoadOf(statsReply, recentReply, lowReply).stats && error == old(error) && b.toasts == old(b.toasts)
      ensures LoadOf(statsReply, recentReply, lowReply).LoadFailed? ==>
        stats == old(stats) && error == ErrorText(LoadOf(statsReply, recentReply, lowReply).error)
        && b.toasts == old(b.toasts) + [ToastError(LoadFailedToast)]
    {
      loading := true;
      pending := loading;
      ghost var n0 := b.Net();
      var failure: Option<HttpError> := None;
      var x1 := Exchange(DashboardApi(GetStats), statsReply);
      var r1 := ApiClient.Send(b, x1);
      ApiClient.RunSnoc(n0, [], x1);
      assert [] + [x1] == [x1];
      if r1.Failed? {
        failure := Some(r1.error);
      } else {
        var x2 := Exchange(DashboardApi(GetRecentOrders), recentReply);
        var r2 := ApiClient.Send(b, x2);
        ApiClient.RunSnoc(n0, [x1], x2);
        assert [x1] + [x2] == [x1, x2];
        if r2.Failed? {
          failure := Some(r2.error);
        } else {
          var x3 := Exchange(DashboardApi(GetLowStockProducts), lowReply);
          var r3 := ApiClient.Send(b, x3);
          ApiClient.RunSnoc(n0, [x1, x2], x3);
          assert [x1, x2] + [x3] == [x1, x2, x3];
          if r3.Failed? {
            failure := Some(r3.error);
          } else if IsNullish(r1.data) {
            failure := Some(HttpError(None));
          } else {
            stats := NewStats(r1.data, r2.data, r3.data);
          }
        }
      }
      if failure.Some? {
        error := ErrorText(failure.value);
        b.toasts := b.toasts + [ToastError(LoadFailedToast)];
      }
      loading := false;
    }
  }
}
