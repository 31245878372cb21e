# Admin dashboard: HTTP client, route guard and view controllers

This project models the browser-side core of an e-commerce admin dashboard,
a React single-page application that talks to a REST backend. It covers:

- the shared HTTP client and its two interceptors. The request step attaches
  `Authorization: Bearer <token>` from `localStorage`. The response step ends
  the session on a 401 and rejects every failure to the caller;
- the named API modules: one per REST resource, plus settings, dashboard and
  auth;
- the route table of `App.jsx` and its `ProtectedRoute` guard;
- the controllers of the admin views: each view's state and what every
  handler does to it, to the browser and to the backend.

The layout of the model:

- **Values.** JavaScript values are the datatype `Js.Value`: `undefined`,
  `null`, booleans, integers, strings, arrays and objects, with JavaScript
  truthiness, `||`, optional property access and `String(v)`.
- **Backend.** The backend is not modelled. Each call takes the reply it gets
  (`Http.Reply`: `Ok(data)` or `Failed(error)`) as an input.
- **Browser.** The browser state that handlers touch is one object,
  `Browser.Browser`: the storage, `window.location.href`, the toasts shown,
  the requests that left the client and the router's `navigate` targets.
  `ApiClient.Send` is one call through both interceptors. Its effect is the
  function `ApiClient.Dispatch`, and `ApiClient.Run` chains that effect over
  several calls.
- **Views.** Each view is a class whose fields are its React state. Each
  handler is a method whose postcondition gives:
  - the whole new state;
  - the exact requests sent, as `Dispatch`/`Run` of the calls made;
  - the toasts added.
- **Refetches.** A handler triggers a refetch without awaiting it. The model
  runs that refetch inside the same step, with its own reply (`refetch`).
- **Form handlers.** The pure part of each form handler is a function with
  its own lemmas: the nested `handleChange` updates, the tag splitting, the
  create-or-update choice and the status toggles.

## Model

| member | source | states |
|---|---|---|
| Http.AuthorizedHeaders | src/utils/api.js:15-21 | `Authorization` is `Bearer <token>` exactly when a truthy token is stored; no other header changes and none is added |
| Http.HasToken | src/App.jsx:47 | `localStorage.getItem('adminToken')` is truthy: the key is present and its value is not empty |
| Http.Is401 | src/utils/api.js:32 | `error.response?.status === 401`: false for an error without a response |
| Http.ServerMessage | src/utils/axios.js:42 | `error.response?.data?.message`, `undefined` when any step is missing |
| AxiosClient.RequestInterceptor | src/utils/axios.js:15-26 | the config is changed in place and returned: its call is unchanged, and its headers gain the bearer header per the stored token |
| AxiosClient.ResponseFulfilled | src/utils/axios.js:30 | a fulfilled response passes through unchanged |
| AxiosClient.ErrorToasts | src/utils/axios.js:34-46 | a 401 adds the session-expired notice first; then a truthy server message is shown, or else the generic text; one toast, two on 401 |
| AxiosClient.ResponseRejected | src/utils/axios.js:31-49 | a 401 removes the token and moves the window to the login page; the toasts are `ErrorToasts`; it rejects with the same error |
| AxiosClient.LogoutOn401 | src/utils/axios.js:35-37 | after the token is removed, no truthy token is stored |
| ApiClient.RequestInterceptor | src/utils/api.js:15-22 | the config gains the bearer header exactly when a token is stored; its call is unchanged |
| ApiClient.ResponseFulfilled | src/utils/api.js:30 | a fulfilled response passes through unchanged |
| ApiClient.ResponseRejected | src/utils/api.js:31-38 | a 401 removes the token and sets the location to the login page; any other error touches nothing; it rejects with the same error |
| ApiClient.Send | src/utils/api.js:15-38 | one call appends exactly one request and has the browser effect `Dispatch`; the caller receives the backend's reply unchanged |
| ApiClient.Outgoing | src/utils/api.js:15-21 | the request that leaves the client: the call with the default headers as the request step leaves them |
| ApiClient.Dispatch | src/utils/api.js:15-38 | the browser effect of one call: its request is logged, and a 401 clears the token and sets the login location; `DispatchSendsOne` and `DispatchSession` state its properties |
| ApiClient.Run | src/utils/api.js:15-38 | a sequence of calls applied one after the other: the log grows by one request per call and keeps its earlier entries |
| ApiClient.DispatchSendsOne | src/utils/api.js:15-21 | an exchange appends exactly its own request to the log, and that request carries the bearer header iff a token was stored |
| ApiClient.DispatchSession | src/utils/api.js:32-36 | a 401 clears the token and redirects to the login page; any other reply leaves storage and location alone |
| ApiClient.RunNeverStoresToken | src/utils/api.js:29-38 | the client never stores a token; over any run of calls, an absent token stays absent |
| ApiClient.RunSnoc | src/utils/api.js:15-38 | a run extended by one call equals that call dispatched after the run |
| ApiClient.RunAppends | src/utils/api.js:15-21 | a run appends exactly one request per call, in call order, to the old log |
| ApiClient.NoBearerWithoutToken | src/utils/api.js:17-20 | with no token stored, no request of any run carries `Authorization` |
| ApiClient.NoBearerAfter401 | src/utils/api.js:32-35 | once a call is answered 401, no later request of the run carries `Authorization` |
| Endpoints.ResourceApi | src/utils/api.js:49-116 | an operation has a call exactly when its module defines it; `ordersAPI` has no create/update and `customersAPI` has no create |
| Endpoints.ProductsApi | src/utils/api.js:49-56 | the six calls of `productsAPI`, one per operation; `ModulesFollowConvention` states their form |
| Endpoints.OrdersApi | src/utils/api.js:59-64 | the four calls of `ordersAPI`; `create` and `update` are absent |
| Endpoints.CustomersApi | src/utils/api.js:67-73 | the five calls of `customersAPI`; `create` is absent |
| Endpoints.BlogsApi | src/utils/api.js:76-83 | the six calls of `blogsAPI` |
| Endpoints.DiscountsApi | src/utils/api.js:86-93 | the six calls of `discountsAPI` |
| Endpoints.ShippingApi | src/utils/api.js:109-116 | the six calls of `shippingAPI` |
| Endpoints.Item | src/utils/api.js:51 | a `` `/R/${id}` `` path: the id inserted as a template literal prints it, `undefined` included |
| Endpoints.Api | src/utils/api.js:49-116 | the call of an operation the module defines; calling one it does not define is a TypeError, so callers must name a defined one |
| Endpoints.ModulesFollowConvention | src/utils/api.js:49-116 | every defined operation is `GET /R`, `GET /R/id`, `POST /R`, `PUT /R/id`, `DELETE /R/id` or `PATCH /R/id/status` with `{status}` |
| Endpoints.StatusIsWrapped | src/utils/api.js:55 | `updateStatus(id, s)` always sends `{status: s}`, whatever `s` is |
| Endpoints.CallDeterminesResource | src/utils/api.js:49-116 | two defined operations with the same verb and path belong to the same resource |
| Endpoints.CallDeterminesKind | src/utils/api.js:49-116 | within a resource, the verb and path determine the kind of operation |
| Endpoints.AuthApi | src/utils/api.js:42-46 | login posts `{email, password}` to `/api/auth/login`; `me` is a GET; logout is a POST without a body |
| Endpoints.SettingsApi | src/utils/api.js:96-99 | both operations address `/settings`: a GET without a body, a PUT of the record |
| Endpoints.DashboardApi | src/utils/api.js:102-106 | three body-less GETs of the three report paths |
| Routes.ProtectedRoute | src/App.jsx:46-49 | a truthy stored token renders the view with its parameters; with no token, the guard redirects to the login page |
| Routes.Match | src/App.jsx:55-163 | a pattern matches exactly the segments of its length whose literals agree |
| Routes.MatchBinds | src/App.jsx:82 | a match binds every parameter of the pattern to its own segment (the first occurrence of a repeated name wins) and binds nothing else |
| Routes.FirstMatch | src/App.jsx:54-164 | the first matching route is returned with its bindings; `None` means no route of the table matches |
| Routes.Segments | src/App.jsx:54-164 | a location is cut at `/` into non-empty segments, none containing `/` |
| Routes.Show | src/App.jsx:55-163 | a route's element renders its own view with the bound parameters (a guarded one only with a truthy token), or redirects to its target, or, guarded without a token, to the login page; it never renders nothing |
| Routes.Resolve | src/App.jsx:53-165 | a location renders nothing exactly when no route of the table matches it |
| Routes.OnlyLoginUnguarded | src/App.jsx:55 | `/admin/login` is the only route whose element renders without the guard |
| Routes.ParamRoutes | src/App.jsx:82 | the only parameters are `:orderId` of `/admin/orders/:orderId` and `:id` of `/admin/edit-product/:id` (line 106) |
| Routes.ClashExcludes | src/App.jsx:55-163 | two clashing patterns never both match the same segments |
| Routes.TableClashes | src/App.jsx:55-163 | every two routes of the table clash; in particular no two share a pattern |
| Routes.NoOverlap | src/App.jsx:55-163 | at most one route matches any location |
| Routes.FirstMatchAt | src/App.jsx:54-164 | the first match is the route at the first index that matches |
| Routes.ResolveAt | src/App.jsx:54-164 | a location shows the element of the one route that matches it |
| Routes.GuardedViewsNeedToken | src/App.jsx:46-49 | no view other than the login page is ever rendered unless a truthy token is stored |
| Routes.RootRedirects | src/App.jsx:163 | `/` redirects to the login page, whatever is stored |
| Routes.AdminIsDashboard | src/App.jsx:58-72 | `/admin` and `/admin/dashboard` resolve to the same guarded dashboard |
| Routes.OrderDetailsRoute | src/App.jsx:82-88 | `/admin/orders/<id>` renders the guarded order details and binds `orderId` to the id |
| Routes.LongPathsUnrouted | src/App.jsx:55-163 | no route has more than three segments, so a longer location resolves to nothing |
| Routes.BlogsAddLinkIsUnrouted | src/admin/AdminBlogs.jsx:73 | the blog list's "Add New Blog" link `/admin/blogs/add` matches no route |
| Routes.AddBlogPathRenders | src/App.jsx:130-136 | `/admin/add-blog`, the editor's actual route, renders the guarded editor |
| Strings.Split | src/admin/AddBlog.jsx:33 | `split` yields at least one piece, and two or more when the separator occurs |
| Strings.SplitLength | src/admin/AddBlog.jsx:33 | the number of pieces is one more than the number of separators |
| Strings.SplitPiecesFree | src/admin/AddBlog.jsx:33 | no piece contains the separator |
| Strings.JoinSplit | src/admin/AddBlog.jsx:33 | joining the pieces with the separator gives back the string |
| Strings.Trim | src/admin/AddBlog.jsx:33 | `trim` removes whitespace only at the ends, and no whitespace is left at either end |
| Strings.SliceLast | src/admin/AdminOrders.jsx:113 | `slice(-n)` gives the last `min(n, length)` characters |
| Js.Truthy | src/admin/AdminDashboard.jsx:37 | JavaScript truthiness: `undefined`, `null`, `false`, `0` and `""` are falsy, every array and object truthy |
| Js.Or | src/admin/AdminDashboard.jsx:37-41 | `a \|\| b` is one of its operands, `a` when `a` is truthy, and truthy iff either operand is |
| Js.IsNullish | src/admin/ShippingMethods.jsx:52 | `null` or `undefined`, whose properties cannot be read |
| Js.Get | src/utils/axios.js:42 | optional property access: `undefined` on a nullish value, a missing key or a non-object; `length` on arrays and strings |
| Js.Spread | src/admin/AdminSettings.jsx:55 | `{...v}` copies the fields of an object and nothing from `null` or `undefined` |
| Js.Single | src/utils/api.js:55 | the one-key object literal `{ status }` |
| Js.ToString | src/utils/api.js:51 | `String(v)`, as a template literal inserts it: `undefined`, `null`, `true`/`false`, decimal integers, the string itself, comma-joined arrays, `[object Object]` |
| Forms.InputValue | src/admin/AdminSettings.jsx:51 | a checkbox yields `checked`; any other input yields `value` |
| Forms.SetField | src/admin/Discounts.jsx:39-45 | the spread update sets the named field; every other field keeps its value |
| Forms.SetNested | src/admin/AdminSettings.jsx:53-60 | one child of one top-level object is set; every other child and every other key keeps its value |
| Views.FailureToasts | src/admin/AdminOrders.jsx:22-23 | a fetch adds no toast on success and exactly its failure toast on failure |
| Views.ShortId | src/admin/Orders.jsx:78 | `#` followed by the last six characters of the id, or all of a shorter one |
| Views.OrNA | src/admin/Orders.jsx:81-82 | a truthy value is shown as it is; a falsy one shows as `N/A` |
| Views.Flip | src/admin/AdminOrders.jsx:43 | the toggle asks for `to` exactly when the row is at `from`, and for `from` otherwise |
| Views.FlipTwice | src/admin/AdminOrders.jsx:43 | on its two values, toggling twice gives back the status |
| Views.ModalShown | src/admin/AdminOrders.jsx:172 | a details modal shows when its flag is set and its selection is truthy |
| Views.ErrorAfter | src/admin/Orders.jsx:16-27 | after a run of fetches, the error is the failure text once any fetch failed; if all succeeded it is unchanged |
| Views.ErrorSticks | src/admin/Customers.jsx:16-27 | once the error text is set, no later fetch clears it |
| Settings.SettingsChange | src/admin/Settings.jsx:55-73 | a plain name gets the input's `value` even for a checkbox; a dotted name sets only `parent.child`, with `checked` for a checkbox; nothing else changes |
| Settings.SetPath | src/admin/Settings.jsx:263 | an update along the whole dotted path; the top level gains only the first segment |
| Settings.GetSetPath | src/admin/Settings.jsx:263 | reading back the path just written gives the value written |
| Settings.SetPathFrame | src/admin/Settings.jsx:263-293 | writing one path leaves every diverging path unchanged, provided the record is an object down to the divergence |
| Settings.CorrectedSetsLeaf | src/admin/Settings.jsx:263 | the corrected update writes exactly the addressed leaf |
| Settings.CorrectedAgreesOnTwoSegments | src/admin/Settings.jsx:225-245 | on two-segment names, the corrected update equals the written one |
| Settings.ThreeSegmentNameReplacesObject | src/admin/Settings.jsx:59 | as written, ticking `shippingMethods.standard.enabled` replaces the `standard` object with a boolean and loses its price |
| Settings.SetKeepsSibling | src/admin/Settings.jsx:263-272 | setting `a.b.c` keeps the sibling `a.b.d` |
| Settings.CorrectedKeepsPrice | src/admin/Settings.jsx:263-272 | corrected, the same click sets `enabled` and keeps the price at 0 |
| Settings.SettingsPage.constructor | src/admin/Settings.jsx:6-36 | the initial record, loading true, no error, not saving |
| Settings.SettingsPage.FetchSettings | src/admin/Settings.jsx:42-53 | a success replaces the record; a failure keeps it, sets the error and adds a toast; loading is true during the call and false after |
| Settings.SettingsPage.HandleSubmit | src/admin/Settings.jsx:75-86 | one PUT of the record; one success or failure toast; saving is true during the call and false after |
| AdminSettings.AdminSettingsChange | src/admin/AdminSettings.jsx:50-67 | the input's value (`checked` for checkboxes, on plain names too) goes to the key or to `parent.child`; nothing else changes |
| AdminSettings.FormFieldsKeepGroups | src/admin/AdminSettings.jsx:216-273 | every name of the form is plain or two-segment, and addresses an existing switch |
| AdminSettings.InitialShaped | src/admin/AdminSettings.jsx:12-32 | both groups start as objects holding exactly their switches |
| AdminSettings.EditKeepsShape | src/admin/AdminSettings.jsx:50-67 | one edit through a form field keeps both groups' key sets |
| AdminSettings.EditsKeepShape | src/admin/AdminSettings.jsx:216-273 | any sequence of edits through the form keeps `paymentMethods` and `shippingMethods` with their key sets |
| AdminSettings.AdminSettingsPage.constructor | src/admin/AdminSettings.jsx:10-32 | the initial record, loading true, not saving |
| AdminSettings.AdminSettingsPage.FetchSettings | src/admin/AdminSettings.jsx:38-48 | a success replaces the record; a failure leaves it and adds a toast; loading false after |
| AdminSettings.AdminSettingsPage.HandleSubmit | src/admin/AdminSettings.jsx:69-80 | one PUT; one success or failure toast; saving true during the call and false after |
| AddBlog.SplitTags | src/admin/AddBlog.jsx:33 | one tag per comma-separated piece: each is the trimmed piece, with no comma and no whitespace at its ends |
| AddBlog.EmptyTags | src/admin/AddBlog.jsx:33 | an empty field gives one empty tag, not an empty list |
| AddBlog.TagsRoundTrip | src/admin/AddBlog.jsx:33 | when no piece has surrounding whitespace, joining the tags with `,` gives back the field |
| AddBlog.TagValues | src/admin/AddBlog.jsx:33 | the tags become a JSON array of the same strings |
| AddBlog.Payload | src/admin/AddBlog.jsx:31-34 | the payload has the form's keys, with every field copied except `tags`, which becomes the split list |
| AddBlog.InitialPayload | src/admin/AddBlog.jsx:10-17 | submitting the untouched form posts a draft with tags `[""]` |
| AddBlog.ChangeField | src/admin/AddBlog.jsx:19-25 | the named field is set; every other field keeps its value |
| AddBlog.AddBlogPage.HandleChange | src/admin/AddBlog.jsx:19-25 | the form becomes `ChangeField` of the old form, and keeps its `tags` field |
| AddBlog.AddBlogPage.HandleSubmit | src/admin/AddBlog.jsx:27-43 | one POST of the payload; on success a toast and navigation to `/admin/blogs`, on failure a toast and no navigation; loading false after |
| Discounts.SubmitCall | src/admin/Discounts.jsx:47-63 | with a discount selected, a PUT to its id, otherwise a POST; the form is the body either way |
| Discounts.EditForm | src/admin/Discounts.jsx:65-78 | the six plain fields are copied from the discount; both dates are given as days |
| Discounts.StatusCallBody | src/admin/Discounts.jsx:189 | the row's button sends `{status: {isActive: !isActive}}` to its id |
| Discounts.StatusArgument | src/admin/Discounts.jsx:189 | the row's button passes the negation of the row's `isActive` |
| Discounts.ValueDisplay | src/admin/Discounts.jsx:167 | a percentage shows as `value%`, anything else as `$value` |
| Discounts.DiscountsPage.constructor | src/admin/Discounts.jsx:6-20 | empty list, loading, no selection, modal closed, the default form |
| Discounts.DiscountsPage.FetchDiscounts | src/admin/Discounts.jsx:26-37 | the list on success; the error and a toast on failure; loading false after |
| Discounts.DiscountsPage.HandleChange | src/admin/Discounts.jsx:39-45 | only the named field changes, to `checked` for a checkbox and to `value` otherwise |
| Discounts.DiscountsPage.ResetForm | src/admin/Discounts.jsx:102-114 | the default form and no selection |
| Discounts.DiscountsPage.OpenAdd | src/admin/Discounts.jsx:129-132 | the default form in an open modal |
| Discounts.DiscountsPage.HandleSubmit | src/admin/Discounts.jsx:47-63 | exactly one create or update; on success the modal closes, a refetch runs and the form resets; on failure only a toast |
| Discounts.DiscountsPage.HandleEdit | src/admin/Discounts.jsx:65-78 | selects the discount, fills the form from it, opens the modal |
| Discounts.DiscountsPage.HandleDelete | src/admin/Discounts.jsx:80-90 | without confirmation nothing is sent or changed; with it, exactly one delete, and a refetch only on success, after which loading is false and the error is the fetch failure text iff the refetch failed; a failed delete leaves every field of the page as it was |
| Discounts.DiscountsPage.HandleStatusChange | src/admin/Discounts.jsx:92-100 | one status call with `{isActive}`, a toast, and a refetch on success, after which loading is false and the error is the fetch failure text iff the refetch failed; a failed call leaves every field of the page as it was |
| ShippingMethods.EditForm | src/admin/ShippingMethods.jsx:98-104 | the five form fields are the method's own |
| ShippingMethods.EditCall | src/admin/ShippingMethods.jsx:52 | with no selection, no call (reading `_id` throws); otherwise a PUT of the form to the method's id |
| ShippingMethods.EditOpenedMethod | src/admin/ShippingMethods.jsx:96-106 | after a method is opened, submitting the untouched form updates that method with its own fields |
| ShippingMethods.NewStatus | src/admin/ShippingMethods.jsx:76 | the new status is the negation of the row's truthiness |
| ShippingMethods.StatusToggleTwice | src/admin/ShippingMethods.jsx:76 | toggling a boolean status twice gives it back |
| ShippingMethods.StatusMessage | src/admin/ShippingMethods.jsx:78 | the toast says "activated" for an activation and "deactivated" otherwise |
| ShippingMethods.StatusCallBody | src/admin/ShippingMethods.jsx:77 | the status call sends `{status: <boolean>}` to `/shipping-methods/<id>/status` |
| ShippingMethods.ShippingMethodsPage.constructor | src/admin/ShippingMethods.jsx:7-18 | empty list, loading, both modals closed, no selection, default form |
| ShippingMethods.ShippingMethodsPage.EditModalShown | src/admin/ShippingMethods.jsx:288 | the edit modal shows when its flag is set and the selected method is truthy |
| ShippingMethods.ShippingMethodsPage.FetchShippingMethods | src/admin/ShippingMethods.jsx:24-34 | the list on success; only a toast on failure; loading false after |
| ShippingMethods.ShippingMethodsPage.SetFormField | src/admin/ShippingMethods.jsx:217-258 | one form field is set; the others keep their values |
| ShippingMethods.ShippingMethodsPage.ResetForm | src/admin/ShippingMethods.jsx:85-94 | the default form and no selection |
| ShippingMethods.ShippingMethodsPage.OpenAddModal | src/admin/ShippingMethods.jsx:121 | the add modal opens |
| ShippingMethods.ShippingMethodsPage.CancelAdd | src/admin/ShippingMethods.jsx:266-269 | the add modal closes and the form resets |
| ShippingMethods.ShippingMethodsPage.CancelEdit | src/admin/ShippingMethods.jsx:348-351 | the edit modal closes and is no longer shown; the form resets |
| ShippingMethods.ShippingMethodsPage.OpenEditModal | src/admin/ShippingMethods.jsx:96-106 | selects the method, copies its five fields, opens the edit modal, which is then shown for a truthy method (line 288) |
| ShippingMethods.ShippingMethodsPage.HandleAdd | src/admin/ShippingMethods.jsx:36-47 | one create; on success the add modal closes, a refetch runs and the form resets; on failure only a toast |
| ShippingMethods.ShippingMethodsPage.HandleEdit | src/admin/ShippingMethods.jsx:49-60 | with no selection, no request, the failure toast and no field changed; otherwise one update, and on success the edit modal closes, a refetch runs and the form resets; a failed update changes no field |
| ShippingMethods.ShippingMethodsPage.HandleDelete | src/admin/ShippingMethods.jsx:62-72 | nothing without confirmation; with it, one delete, and a refetch only on success; after a successful refetch the list is the new data, and loading is false either way; a failed call leaves every field of the page as it was |
| ShippingMethods.ShippingMethodsPage.HandleStatusChange | src/admin/ShippingMethods.jsx:74-83 | one status call with the negated status, the matching toast, and a refetch on success; after a successful refetch the list is the new data, and loading is false either way; a failed call leaves every field of the page as it was |
| AdminOrders.NewStatus | src/admin/AdminOrders.jsx:43 | a completed order is sent `pending`; any other is sent `completed` |
| AdminOrders.NewStatusTwice | src/admin/AdminOrders.jsx:43 | on `completed` and `pending`, toggling twice gives back the status |
| AdminOrders.StatusColor | src/admin/AdminOrders.jsx:57-68 | green iff completed, yellow iff pending, red iff cancelled, gray for every other value |
| AdminOrders.StatusCallBody | src/admin/AdminOrders.jsx:44 | the status call sends the toggled status as `{status: <string>}` |
| AdminOrders.AdminOrdersPage.constructor | src/admin/AdminOrders.jsx:8-11 | empty list, loading, no selection, modal closed |
| AdminOrders.AdminOrdersPage.DetailsShown | src/admin/AdminOrders.jsx:172 | the details modal shows when its flag is set and the selected order is truthy |
| AdminOrders.AdminOrdersPage.FetchOrders | src/admin/AdminOrders.jsx:17-27 | the list on success; only a toast on failure; loading false after |
| AdminOrders.AdminOrdersPage.HandleDelete | src/admin/AdminOrders.jsx:29-39 | nothing without confirmation; with it, one delete, and a refetch only on success; after a successful refetch the list is the new data, and loading is false either way; a failed call leaves every field of the page as it was |
| AdminOrders.AdminOrdersPage.HandleStatusChange | src/admin/AdminOrders.jsx:41-50 | one status call with the toggled status, ``Order ${newStatus} successfully``, and a refetch on success; after a successful refetch the list is the new data, and loading is false either way; a failed call leaves every field of the page as it was |
| AdminOrders.AdminOrdersPage.HandleViewDetails | src/admin/AdminOrders.jsx:52-55 | selects the order and opens the modal, which shows iff the order is truthy (line 172) |
| AdminOrders.AdminOrdersPage.CloseModal | src/admin/AdminOrders.jsx:215 | the modal closes |
| AdminBlogs.NewStatus | src/admin/AdminBlogs.jsx:46 | a published post is sent `draft`; any other is sent `published` |
| AdminBlogs.NewStatusTwice | src/admin/AdminBlogs.jsx:46 | on `published` and `draft`, toggling twice gives back the status |
| AdminBlogs.BadgeColor | src/admin/AdminBlogs.jsx:113-117 | green exactly for published, yellow for every other value |
| AdminBlogs.ToggleFlipsBadge | src/admin/AdminBlogs.jsx:44-53 | after a toggle, the post's badge changes colour |
| AdminBlogs.EditLinkIsUnrouted | src/admin/AdminBlogs.jsx:134 | the edit button's `/admin/blogs/edit/<id>` matches no route |
| AdminBlogs.EditLink | src/admin/AdminBlogs.jsx:134 | the edit button's target, `/admin/blogs/edit/` followed by `String(id)` |
| AdminBlogs.AdminBlogsPage.constructor | src/admin/AdminBlogs.jsx:11-14 | empty list, loading, no selection, modal closed |
| AdminBlogs.AdminBlogsPage.DetailsShown | src/admin/AdminBlogs.jsx:169 | the details modal shows when its flag is set and the selected post is truthy |
| AdminBlogs.AdminBlogsPage.FetchBlogs | src/admin/AdminBlogs.jsx:20-30 | the list on success; only a toast on failure; loading false after |
| AdminBlogs.AdminBlogsPage.HandleDelete | src/admin/AdminBlogs.jsx:32-42 | nothing without confirmation; with it, one delete, and a refetch only on success; after a successful refetch the list is the new data, and loading is false either way; a failed call leaves every field of the page as it was |
| AdminBlogs.AdminBlogsPage.HandleStatusChange | src/admin/AdminBlogs.jsx:44-53 | one status call with the toggled status, the matching toast, and a refetch on success; after a successful refetch the list is the new data, and loading is false either way; a failed call leaves every field of the page as it was |
| AdminBlogs.AdminBlogsPage.HandleViewDetails | src/admin/AdminBlogs.jsx:55-58 | selects the post and opens the modal, which shows iff the post is truthy (line 169) |
| AdminBlogs.AdminBlogsPage.CloseModal | src/admin/AdminBlogs.jsx:188 | the modal closes |
| AdminBlogs.AdminBlogsPage.EditPost | src/admin/AdminBlogs.jsx:134 | navigates to the edit link and does nothing else |
| OrderDetails.ParamId | src/admin/OrderDetails.jsx:9 | as written, it reads the route parameter `id`, and gets `undefined` when the route binds none |
| OrderDetails.CorrectedParamId | src/App.jsx:82 | it reads the parameter the order route binds, `orderId` |
| OrderDetails.AsWrittenFetchesUndefined | src/admin/OrderDetails.jsx:9-23 | for every order location, the page gets no `id` and requests `GET /orders/undefined` |
| OrderDetails.CorrectedFetchesOrder | src/admin/OrderDetails.jsx:23 | reading `orderId`, the page requests `GET /orders/<id>` for the id in the location |
| OrderDetails.ScreenOf | src/admin/OrderDetails.jsx:46-86 | spinner while loading; then the error; then "not found" for a falsy order; otherwise the details |
| OrderDetails.ErrorHidesDetails | src/admin/OrderDetails.jsx:20-31 | once a fetch has failed, no later fetch, successful or not, brings the details back |
| OrderDetails.StatusColor | src/admin/OrderDetails.jsx:126-132 | green, blue, purple or red iff completed, processing, shipped or cancelled; yellow for anything else |
| OrderDetails.DiscountShown | src/admin/OrderDetails.jsx:222 | the discount row shows for a positive number or `true`, never for a missing discount or `false` |
| OrderDetails.StatusCallBody | src/admin/OrderDetails.jsx:36 | the status call wraps the status twice, `{status: {status: s}}` |
| OrderDetails.OrderDetailsPage.constructor | src/admin/OrderDetails.jsx:9-14 | the given id, no order, loading, no error, not updating |
| OrderDetails.OrderDetailsPage.Screen | src/admin/OrderDetails.jsx:46-86 | the page's screen is `ScreenOf` its loading flag, error and order |
| OrderDetails.OrderDetailsPage.FetchOrderDetails | src/admin/OrderDetails.jsx:20-31 | one GET by the page's id; the order on success; on failure the error text and a toast; a success leaves an earlier error |
| OrderDetails.OrderDetailsPage.HandleStatusChange | src/admin/OrderDetails.jsx:33-44 | one status call; on success a toast and a refetch, on failure a toast; updating true during the call and false after |
| AdminDashboard.NewStats | src/admin/AdminDashboard.jsx:36-42 | each count is the report's, or 0 when that is falsy; each list is the report, or `[]` when that is falsy |
| AdminDashboard.NewStatsTruthy | src/admin/AdminDashboard.jsx:36-42 | no list of the merged record is falsy and no count is `undefined` |
| AdminDashboard.Exchanges | src/admin/AdminDashboard.jsx:25-33 | the three reports are requested in order, stopping after the first failure |
| AdminDashboard.LoadOf | src/admin/AdminDashboard.jsx:20-46 | loaded iff all three succeed and the stats report is not nullish; otherwise the first failure, or a response-less error when reading counts of a null report throws |
| AdminDashboard.ErrorText | src/admin/AdminDashboard.jsx:45 | the server's message when truthy, else the default text; never falsy |
| AdminDashboard.ScreenOf | src/admin/AdminDashboard.jsx:55-69 | spinner while loading, then the error text when truthy, else the dashboard |
| AdminDashboard.FailedLoadShowsError | src/admin/AdminDashboard.jsx:43-69 | every failed load ends on the error text, never on the dashboard |
| AdminDashboard.NullStatsShowDefault | src/admin/AdminDashboard.jsx:37 | a `null` stats report still requests all three reports, then shows the default text |
| AdminDashboard.HasRows | src/admin/AdminDashboard.jsx:116 | an array shows its table iff it is non-empty; a number or boolean never does |
| AdminDashboard.FalsyListShowsPlaceholder | src/admin/AdminDashboard.jsx:40 | a falsy recent-orders report shows the placeholder |
| AdminDashboard.StatusColor | src/admin/AdminDashboard.jsx:134-137 | green iff completed, yellow iff pending, red for every other value |
| AdminDashboard.AdminDashboardPage.constructor | src/admin/AdminDashboard.jsx:8-16 | zero counts, empty lists, loading, empty error |
| AdminDashboard.AdminDashboardPage.Screen | src/admin/AdminDashboard.jsx:55-69 | the page's screen is `ScreenOf` its loading flag, error and record |
| AdminDashboard.AdminDashboardPage.FetchDashboardData | src/admin/AdminDashboard.jsx:19-50 | the requests are `Run` of `Exchanges`; a full load replaces the record; a failed one keeps it, sets `ErrorText` and adds a toast; loading false after |
| Orders.StatusColor | src/admin/Orders.jsx:94-98 | green iff completed, yellow iff pending, red for every other value |
| Orders.StatusCallBody | src/admin/Orders.jsx:31 | the selector's call wraps the status twice |
| Orders.OrdersPage.constructor | src/admin/Orders.jsx:6-10 | empty list, loading, no error, no selection, modal closed |
| Orders.OrdersPage.BannerShown | src/admin/Orders.jsx:56 | the error banner shows exactly when the error text is not empty |
| Orders.OrdersPage.DetailsShown | src/admin/Orders.jsx:122 | the details modal shows when its flag is set and the selected order is truthy |
| Orders.OrdersPage.FetchOrders | src/admin/Orders.jsx:16-27 | the list on success; on failure the error text and a toast; nothing clears the error |
| Orders.OrdersPage.HandleStatusChange | src/admin/Orders.jsx:29-37 | one status call; on success a toast and a refetch, on failure a toast |
| Orders.OrdersPage.HandleViewDetails | src/admin/Orders.jsx:39-42 | selects the order and opens the modal, which shows iff the order is truthy (line 122) |
| Orders.OrdersPage.CloseModal | src/admin/Orders.jsx:161 | the modal closes |
| Customers.Avatar | src/admin/Customers.jsx:82 | the customer's own truthy avatar, else the generated one for the name |
| Customers.OrderCount | src/admin/Customers.jsx:94 | the length of an orders array; 0 when there is none; never nullish |
| Customers.StatusLabel | src/admin/Customers.jsx:101 | `Active` for a truthy `isActive`, `Inactive` otherwise |
| Customers.ButtonLabel | src/admin/Customers.jsx:117 | `Deactivate` for a truthy `isActive`, `Activate` otherwise |
| Customers.StatusArgument | src/admin/Customers.jsx:112 | the button passes the negation of the row's `isActive` |
| Customers.ButtonMatchesArgument | src/admin/Customers.jsx:98-117 | the button offers the opposite of the label, and sends what it offers, as `{status: {isActive}}` |
| Customers.CustomersPage.constructor | src/admin/Customers.jsx:6-10 | empty list, loading, no error, no selection, modal closed |
| Customers.CustomersPage.DetailsShown | src/admin/Customers.jsx:127 | the details modal shows when its flag is set and the selected customer is truthy |
| Customers.CustomersPage.FetchCustomers | src/admin/Customers.jsx:16-27 | the list on success; on failure the error text and a toast; nothing clears the error |
| Customers.CustomersPage.HandleViewDetails | src/admin/Customers.jsx:29-32 | selects the customer and opens the modal, which shows iff the customer is truthy (line 127) |
| Customers.CustomersPage.CloseModal | src/admin/Customers.jsx:174 | the modal closes |
| Customers.CustomersPage.HandleStatusChange | src/admin/Customers.jsx:34-42 | one status call with `{isActive}`; on success a toast and a refetch, on failure a toast |

Where the design description and the code disagree, the model follows the
code:

- the route guard checks the stored token synchronously
  (`src/App.jsx:46-49`). It has no authentication context with a loading
  phase;
- the resource paths are bare (`/orders`, not `/admin/orders`);
- the dashboard requests its three reports one after the other and stops at
  the first failure. It does not issue them concurrently and wait for all.

## Left out

- The authentication context is not part of this model, nor is the login
  page. `useAuth` in `src/admin/AdminBlogs.jsx:10` is unused.
- `api.js` builds its client with `create` on the instance that `axios.js`
  exports. A created instance does not inherit the interceptors registered
  on the one it came from. So each call runs only the `api.js` pair: one
  request step, one response step, and no toast from the client. The
  `axios.js` pair is modelled on its own, in `AxiosClient`.
- Asynchrony is not modelled. A handler and the refetch it starts without
  awaiting it happen in one step, so an interleaving with other events is
  not represented.
- The backend is an input reply per call. Repeated fetches returning the
  same data is a property of the backend, not of this code.
- Numbers are integers: `toFixed(2)` on totals and floating-point prices
  are not modelled.
- `Discounts.DiscountsPage.HandleEdit`: takes the two dates already
  formatted as days. It does not model `new Date(...).toISOString()`, nor
  its throw on an invalid date.
- The dates shown in rows (`toLocaleDateString`) are not modelled.
- `Strings.Trim`: removes a fixed set of whitespace characters (ASCII
  whitespace and no-break space), not every Unicode space that
  `String.prototype.trim` removes.
- `Routes.Resolve`: matches segments exactly, and drops empty segments, so
  `/admin//orders` resolves like `/admin/orders` and a trailing slash is
  ignored. It does not model React Router's case-insensitive matching or its
  URL decoding of parameters.
- `Js.Spread`: gives no keys for a string or an array, where JavaScript
  copies their indices. The handlers only spread objects.
- `OrderDetails.DiscountShown`: does not coerce strings or other values to
  numbers for `> 0`; they count as not shown.
- `AxiosClient.ErrorToasts`: shows `String(message)` for a truthy server
  message. `toast.error` receives the message itself, so a number shows the
  same, but an object or array would be rendered differently, or fail to
  render.
- Rendering is modelled only where a handler's effect depends on it: which
  screen or modal shows, the colours, the labels and the short id. JSX
  layout, icons and animations are not modelled. Neither is the throw when
  a row misses a field the JSX reads unguarded, such as `order.customer.name`
  or `null.length`.
- Console logging, the environment-supplied base URL and
  `withCredentials` are not modelled.
- The store at checkout, the product pages, and the layout and navigation
  shell are not part of this model.

## Findings

| source | as written | input that shows it | evidently intended | confidence | as-written member | corrected member |
|---|---|---|---|---|---|---|
| src/admin/Settings.jsx:59 | `const [parent, child] = name.split('.')` keeps two segments, so `shippingMethods.standard.enabled` (line 263) sets `shippingMethods.standard` itself to the checkbox value | ticking the standard-shipping checkbox on the initial record: `standard` becomes `true` and its price is lost | set `shippingMethods.standard.enabled` and keep the price | not executed | Settings.ThreeSegmentNameReplacesObject | Settings.CorrectedKeepsPrice |
| src/admin/OrderDetails.jsx:9 | reads `useParams().id`, but the route (`src/App.jsx:82`) binds `:orderId` | any location `/admin/orders/<id>` with a token stored: the page requests `GET /orders/undefined` | read `orderId` and request `GET /orders/<id>` | not executed | OrderDetails.AsWrittenFetchesUndefined | OrderDetails.CorrectedFetchesOrder |
| src/admin/AdminBlogs.jsx:73 | the "Add New Blog" link goes to `/admin/blogs/add` | following the link: no route matches and nothing renders | link to the editor's route `/admin/add-blog` (`src/App.jsx:130`) | not executed | Routes.BlogsAddLinkIsUnrouted | Routes.AddBlogPathRenders |
