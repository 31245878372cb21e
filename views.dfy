/**
 * Pieces the admin views share: the toast a failed call adds, the rule
 * that shows a details modal, and the short forms in which rows print an
 * id or a missing name.
 */
module Views {
  import opened Strings
  import opened Js
  import opened Http

  /** The toasts a handler adds for one call whose only message is its failure text. */
  function FailureToasts(reply: Reply, text: string): (t: seq<Toast>)
    ensures reply.Ok? <==> t == []
    ensures reply.Failed? ==> t == [ToastError(text)]
  {
    if reply.Ok? then [] else [ToastError(text)]
  }

  /** `{flag && selected && (<modal/>)}`: the modal is rendered only while the flag holds and a row is selected. */
  predicate ModalShown(flag: bool, selected: Value) {
    flag && Truthy(selected)
  }

  /** `#{id.slice(-6)}`: '#' and then the last six characters of the id, or all of a shorter one. */
  function ShortId(id: string): (r: string)
    ensures |r| == 1 + (if |id| < 6 then |id| else 6)
    ensures r[0] == '#' && r[1..] == id[|id| - (|r| - 1)..]
  {
    "#" + SliceLast(id, 6)
  }

  /** `v || 'N/A'`: the value when it is truthy, the placeholder otherwise. */
  function OrNA(v: Value): (r: Value)
    ensures Truthy(v) ==> r == v
    ensures !Truthy(v) ==> r == Str("N/A")
  {
    Or(v, Str("N/A"))
  }

  /**
   * `current === from ? to : from`: the status a toggle button asks for,
   * which is `to` exactly when the row is at `from`.
   */
  function Flip(current: Value, from: string, to: string): (s: string)
    ensures s == from || s == to
    ensures from != to ==> (s == to <==> current == Str(from))
  {
    if current == Str(from) then to else from
  }

  /** On a row that is at one of its two statuses, toggling twice returns it to that status. */
  lemma FlipTwice(s: string, from: string, to: string)
    requires from != to && (s == from || s == to)
    ensures Flip(Str(Flip(Str(s), from, to)), from, to) == s
  {
  }

  /**
   * The error text after a run of fetches, each of which sets `text` when
   * it fails and leaves the error alone when it succeeds: `text` once any
   * of them failed, the starting error otherwise.
   */
  function ErrorAfter(error: string, text: string, replies: seq<Reply>): (e: string)
    ensures (exists k :: 0 <= k < |replies| && replies[k].Failed?) ==> e == text
    ensures (forall k :: 0 <= k < |replies| ==> replies[k].Ok?) ==> e == error
    decreases |replies|
  {
    if replies == [] then error
    else ErrorAfter(if replies[0].Ok? then error else text, text, replies[1..])
  }

  /** Nothing clears such an error: once set, it stays set through any later fetches. */
  lemma ErrorSticks(error: string, text: string, replies: seq<Reply>)
    requires error != "" && text != ""
    ensures ErrorAfter(error, text, replies) != ""
  {
    if exists k :: 0 <= k < |replies| && replies[k].Failed? {
    } else {
      assert forall k :: 0 <= k < |replies| ==> replies[k].Ok?;
    }
  }
}
