/**
 * The blog list, `src/admin/AdminBlogs.jsx`: posts fetched from `/blogs`,
 * a details modal, a delete action, a button that toggles a post between
 * published and draft, and links to the editor.
 */
module AdminBlogs {
  import opened Wrappers
  import opened Js
  import opened Http
  import opened Endpoints
  import opened Browser
  import opened Views
  import ApiClient
  import Routes

  const FetchFailed := "Failed to fetch blogs"
  const DeletedMsg := "Blog post deleted successfully"
  const DeleteFailed := "Failed to delete blog post"
  const StatusFailed := "Failed to update blog status"

  const Published := "published"
  const Draft := "draft"

  const Green := "bg-green-100 text-green-800"
  const Yellow := "bg-yellow-100 text-yellow-800"

  /** The status the row's button asks for: draft for a published post, published for any other. */
  function NewStatus(current: Value): (s: string)
    ensures s == Published || s == Draft
    ensures s == Draft <==> current == Str(Published)
  {
    Flip(current, Published, Draft)
  }

  /** The toggle is an involution on the two statuses it produces. */
  lemma NewStatusTwice(s: string)
    requires s == Published || s == Draft
    ensures NewStatus(Str(NewStatus(Str(s)))) == s
  {
    FlipTwice(s, Published, Draft);
  }

  /** `Blog post ${newStatus} successfully`. */
  function StatusMessage(newStatus: string): string {
    "Blog post " + newStatus + " successfully"
  }

  /** The status badge: green exactly for a published post, yellow for every other value. */
  function BadgeColor(status: Value): (c: string)
    ensures c == Green <==> status == Str(Published)
    ensures c == Yellow <==> status != Str(Published)
  {
    if status == Str(Published) then Green else Yellow
  }

  /** After a successful toggle and refetch, a post that was published shows the draft badge, and vice versa. */
  lemma ToggleFlipsBadge(s: string)
    requires s == Published || s == Draft
    ensures BadgeColor(Str(NewStatus(Str(s)))) != BadgeColor(Str(s))
  {
  }

  /** The row's edit button navigates here. */
  function EditLink(id: Value): string {
    "/admin/blogs/edit/" + ToString(id)
  }

  /** No route matches a post's edit link, so the edit button leads to an empty page. */
  lemma EditLinkIsUnrouted(id: string, storage: map<string, string>)
    requires id != "" && '/' !in id
    ensures Routes.Resolve(EditLink(Str(id)), storage) == Routes.NoMatch
  {
    var link := EditLink(Str(id));
    assert link == "/admin/blogs/edit/" + id;
    assert link == "/" + "admin" + "/" + "blogs" + "/" + "edit" + "/" + id;
    Routes.Segments4("admin", "blogs", "edit", id);
    LongLink(link, id, storage);
  }

  lemma LongLink(link: string, id: string, storage: map<string, string>)
    requires Routes.Segments(link) == ["admin", "blogs", "edit", id]
    ensures Routes.Resolve(link, storage) == Routes.NoMatch
  {
    Routes.LongPathsUnrouted(link, storage);
  }

  class AdminBlogsPage {
    var blogs: Value
    var loading: bool
    var selectedBlog: Value
    var showModal: bool

    constructor ()
      ensures blogs == Arr([]) && loading && selectedBlog == Null && !showModal
    {
      blogs := Arr([]);
      loading := true;
      selectedBlog := Null;
      showModal := false;
    }

    /** The details modal is on screen only while its flag holds and a post is selected. */
    predicate DetailsShown()
      reads this
    {
      ModalShown(showModal, selectedBlog)
    }

    /** `fetchBlogs`: the list on success, only a toast on failure. */
    method FetchBlogs(b: Browser, reply: Reply) returns (pending: bool)
      modifies this`blogs, this`loading, b`storage, b`location, b`requests, b`toasts
      ensures pending && !loading
      ensures b.Net() == ApiClient.Dispatch(old(b.Net()), Exchange(Api(Blogs, GetAll), reply))
      ensures blogs == (if reply.Ok? then reply.data else old(blogs))
      ensures b.toasts == old(b.toasts) + FailureToasts(reply, FetchFailed)
    {
      loading := true;
      pending := loading;
      var r := ApiClient.Send(b, Exchange(Api(Blogs, GetAll), reply));
      if r.Ok? {
        blogs := r.data;
      } else {
        b.toasts := b.toasts + [ToastError(FetchFailed)];
      }
      loading := false;
    }

    /** `handleDelete`: nothing without confirmation; with it one delete, and a refetch if it succeeded. */
    method HandleDelete(b: Browser, id: Value, confirmed: bool, reply: Reply, refetch: Reply)
      modifies this`blogs, this`loading, b`storage, b`location, b`requests, b`toasts
      ensures !confirmed ==>
        b.Net() == old(b.Net()) && b.toasts == old(b.toasts) && blogs == old(blogs) && loading == old(loading)
      ensures confirmed ==>
        var n := ApiClient.Dispatch(old(b.Net()), Exchange(Api(Blogs, Delete(id)), reply));
        b.Net() == (if reply.Ok? then ApiClient.Dispatch(n, Exchange(Api(Blogs, GetAll), refetch)) else n)
      ensures confirmed && reply.Ok? ==>
        blogs == (if refetch.Ok? then refetch.data else old(blogs)) && !loading
        && b.toasts == old(b.toasts) + [ToastSuccess(DeletedMsg)] + FailureToasts(refetch, FetchFailed)
      ensures confirmed && reply.Failed? ==>
        blogs == old(blogs) && loading == old(loading) && b.toasts == old(b.toasts) + [ToastError(DeleteFailed)]
    {
      if confirmed {
        var r := ApiClient.Send(b, Exchange(Api(Blogs, Delete(id)), reply));
        if r.Ok? {
          b.toasts := b.toasts + [ToastSuccess(DeletedMsg)];
          var _ := FetchBlogs(b, refetch);
        } else {
          b.toasts := b.toasts + [ToastError(DeleteFailed)];
        }
      }
    }

    /**
     * `handleStatusChange(id, currentStatus)`: one status call with the
     * toggled status as a bare string, then a refetch on success.
     */
    method HandleStatusChange(b: Browser, id: Value, currentStatus: Value, reply: Reply, refetch: Reply)
      modifies this`blogs, this`loading, b`storage, b`location, b`requests, b`toasts
      ensures var n := ApiClient.Dispatch(old(b.Net()), Exchange(Api(Blogs, UpdateStatus(id, Str(NewStatus(currentStatus)))), reply));
        b.Net() == (if reply.Ok? then ApiClient.Dispatch(n, Exchange(Api(Blogs, GetAll), refetch)) else n)
      ensures reply.Ok? ==>
        blogs == (if refetch.Ok? then refetch.data else old(blogs)) && !loading
        && b.toasts == old(b.toasts) + [ToastSuccess(StatusMessage(NewStatus(currentStatus)))] + FailureToasts(refetch, FetchFailed)
      ensures reply.Failed? ==>
        blogs == old(blogs) && loading == old(loading) && b.toasts == old(b.toasts) + [ToastError(StatusFailed)]
    {
      var newStatus := NewStatus(currentStatus);
      var r := ApiClient.Send(b, Exchange(Api(Blogs, UpdateStatus(id, Str(newStatus))), reply));
      if r.Ok? {
        b.toasts := b.toasts + [ToastSuccess(StatusMessage(newStatus))];
        var _ := FetchBlogs(b, refetch);
      } else {
        b.toasts := b.toasts + [ToastError(StatusFailed)];
      }
    }

    /** `handleViewDetails(blog)`: selects the post and opens the modal. */
    method HandleViewDetails(blog: Value)
      modifies this`selectedBlog, this`showModal
      ensures selectedBlog == blog && showModal
      ensures DetailsShown() <==> Truthy(blog)
    {
      selectedBlog := blog;
      showModal := true;
    }

    /** The modal's Close button. */
    method CloseModal()
      modifies this`showModal
      ensures !showModal && !DetailsShown()
    {
      showModal := false;
    }

    /** The row's edit button: `navigate(EditLink(id))`, and nothing else. */
    method EditPost(b: Browser, id: Value)
      modifies b`history
      ensures b.history == old(b.history) + [EditLink(id)]
    {
      b.history := b.history + [EditLink(id)];
    }
  }
}
