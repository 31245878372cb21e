/**
 * The blog editor, `src/admin/AddBlog.jsx`: a form of string fields whose
 * `tags` field is a comma-separated list, posted as a new blog.
 */
module AddBlog {
  import opened Wrappers
  import opened Strings
  import opened Js
  import opened Http
  import opened Endpoints
  import opened Browser
  import ApiClient

  /** The form the editor starts with. */
  const InitialForm: map<string, string> :=
    map["title" := "", "content" := "", "image" := "", "author" := "", "tags" := "", "status" := "draft"]

  const Created := "Blog post created successfully"
  const CreateFailed := "Failed to create blog post"
  const BlogsPath := "/admin/blogs"

  /**
   * `tags.split(',').map(tag => tag.trim())`: one tag per comma-separated
   * piece, each without surrounding whitespace and without a comma.
   */
  function SplitTags(s: string): (tags: seq<string>)
    ensures |tags| == Count(s, ',') + 1
    ensures forall k :: 0 <= k < |tags| ==> ',' !in tags[k]
    ensures forall k :: 0 <= k < |tags| ==> tags[k] == [] || (!IsWhitespace(tags[k][0]) && !IsWhitespace(tags[k][|tags[k]| - 1]))
    ensures |tags| == |Split(s, ',')| && forall k :: 0 <= k < |tags| ==> StrippedFrom(tags[k], Split(s, ',')[k])
  {
    SplitLength(s, ',');
    SplitPiecesFree(s, ',');
    var parts := Split(s, ',');
    seq(|parts|, k requires 0 <= k < |parts| => Trim(parts[k]))
  }

  /** An empty field gives one empty tag, not an empty list. */
  lemma EmptyTags()
    ensures SplitTags("") == [""]
  {
    assert Trim("") == "";
  }

  /** When no piece carries surrounding whitespace, joining the tags with ',' gives back the field. */
  lemma TagsRoundTrip(s: string)
    requires forall k :: 0 <= k < |Split(s, ',')| ==> Trim(Split(s, ',')[k]) == Split(s, ',')[k]
    ensures Join(SplitTags(s), ',') == s
  {
    assert SplitTags(s) == Split(s, ',');
    JoinSplit(s, ',');
  }

  /** The tags as the JSON array of strings that is posted. */
  function TagValues(tags: seq<string>): (v: Value)
    ensures v.Arr? && |v.items| == |tags|
    ensures forall k :: 0 <= k < |tags| ==> v.items[k] == Str(tags[k])
  {
    Arr(seq(|tags|, k requires 0 <= k < |tags| => Str(tags[k])))
  }

  /** `{ ...formData, tags: <split tags> }`: every other field is copied unchanged. */
  function Payload(form: map<string, string>): (v: Value)
    requires "tags" in form
    ensures v.Obj? && v.fields.Keys == form.Keys
    ensures forall k :: k in form && k != "tags" ==> v.fields[k] == Str(form[k])
    ensures v.fields["tags"] == TagValues(SplitTags(form["tags"]))
  {
    Obj((map k | k in form :: Str(form[k]))["tags" := TagValues(SplitTags(form["tags"]))])
  }

  /** Submitting the untouched form posts a draft with one empty tag. */
  lemma InitialPayload()
    ensures Get(Payload(InitialForm), "status") == Str("draft")
    ensures Get(Payload(InitialForm), "tags") == Arr([Str("")])
  {
    EmptyTags();
  }

  /** `handleChange`: `{ ...prev, [name]: value }` for a string field. */
  function ChangeField(prev: map<string, string>, name: string, value: string): (r: map<string, string>)
    ensures r.Keys == prev.Keys + {name} && r[name] == value
    ensures forall k :: k in prev && k != name ==> r[k] == prev[k]
  {
    prev[name := value]
  }

  class AddBlogPage {
    var formData: map<string, string>
    var loading: bool

    /** The form always has its `tags` field: changes only ever add or overwrite fields. */
    predicate Valid()
      reads this
    {
      "tags" in formData
    }

    constructor ()
      ensures formData == InitialForm && !loading && Valid()
    {
      formData := InitialForm;
      loading := false;
    }

    method HandleChange(name: string, value: string)
      requires Valid()
      modifies this`formData
      ensures Valid() && formData == ChangeField(old(formData), name, value)
    {
      formData := ChangeField(formData, name, value);
    }

    /**
     * `handleSubmit`: posts the payload; on success shows a toast and
     * navigates to the blog list, on failure shows a toast and stays.
     * `loading` holds during the call and is false afterwards.
     */
    method HandleSubmit(b: Browser, reply: Reply) returns (pending: bool)
      requires Valid()
      modifies this`loading, b`storage, b`location, b`requests, b`toasts, b`history
      ensures pending && !loading
      ensures b.Net() == ApiClient.Dispatch(old(b.Net()), Exchange(Api(Blogs, Create(Payload(formData))), reply))
      ensures reply.Ok? ==> b.toasts == old(b.toasts) + [ToastSuccess(Created)] && b.history == old(b.history) + [BlogsPath]
      ensures reply.Failed? ==> b.toasts == old(b.toasts) + [ToastError(CreateFailed)] && b.history == old(b.history)
    {
      loading := true;
      pending := loading;
      var blogData := Payload(formData);
      var r := ApiClient.Send(b, Exchange(Api(Blogs, Create(blogData)), reply));
      if r.Ok? {
        b.toasts := b.toasts + [ToastSuccess(Created)];
        b.history := b.history + [BlogsPath];
      } else {
        b.toasts := b.toasts + [ToastError(CreateFailed)];
      }
      loading := false;
    }
  }
}
