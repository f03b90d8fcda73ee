/** The URL fragment that every chat page uses to remember the open thread. */
module HashRoute {
  import opened Common

  /** `getThreadIdFromHash`: `location.hash` with one leading "#" removed (`/^#/`), and
      `undefined` when nothing is left. */
  function ThreadIdFromHash(hash: string): (r: Option<string>)
    ensures r.Some? ==> r.value != ""
    ensures StartsWith(hash, "#") ==> (r.None? <==> |hash| == 1) && (r.Some? ==> r.value == hash[1..])
    ensures !StartsWith(hash, "#") ==> (r.None? <==> hash == "") && (r.Some? ==> r.value == hash)
  {
    var stripped := if StartsWith(hash, "#") then hash[1..] else hash;
    if stripped == "" then None else Some(stripped)
  }

  /** What `location.hash` reads after the page assigns `fragment` to it: empty for an
      empty fragment, otherwise the fragment behind a single "#". */
  function HashAfterAssign(fragment: string): (h: string)
    ensures h == "" || StartsWith(h, "#")
  {
    var f := if StartsWith(fragment, "#") then fragment[1..] else fragment;
    if f == "" then "" else "#" + f
  }

  /** Storing a thread id in the fragment and reading it back yields the same id, and
      clearing the fragment yields no thread. */
  lemma AssignThenRead(threadId: string)
    ensures threadId != "" && !StartsWith(threadId, "#") ==> ThreadIdFromHash(HashAfterAssign(threadId)) == Some(threadId)
    ensures ThreadIdFromHash(HashAfterAssign("")) == None
  {
    if threadId != "" && !StartsWith(threadId, "#") {
      var h := HashAfterAssign(threadId);
      assert h == "#" + threadId && h[1..] == threadId;
    }
  }
}
