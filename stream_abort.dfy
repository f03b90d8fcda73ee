/** Stopping a reply while it streams (convex/chat/streamAbort.ts): by the order of the
    message being generated, or every live stream of a thread by its stream id. */
module StreamAbort {
  import opened Common
  import opened Store
  import Threads

  const ExplicitReason: string := "Aborting explicitly"
  const AsyncReason: string := "Aborting via async call"

  /** The console line `abortStreamByOrder` writes after the request. */
  function OrderAbortLog(found: bool): string {
    if found then "Aborted stream" else "No stream found"
  }

  /** `abortStreamByOrder`: check access, then ask to abort the stream at (`threadId`,
      `order`) and log whether there was one; a missing stream is not an error. */
  method AbortStreamByOrder(db: Db, threadId: string, order: int) returns (r: Outcome<Error>)
    requires db.Valid()
    modifies db
    ensures db.Valid()
    ensures r == old(Threads.AuthorizeThreadAccess(db, threadId, false))
    ensures r.Fail? ==> unchanged(db)
    ensures r.Pass? ==> db.streams == AbortMatching(old(db.streams), ByOrder(threadId, order), ExplicitReason)
    ensures r.Pass? ==> (db.effects == old(db.effects) +
      [AbortRequested(ByOrder(threadId, order), ExplicitReason),
       Logged(OrderAbortLog(HasLiveMatch(old(db.streams), ByOrder(threadId, order))))])
    ensures db.threads == old(db.threads) && db.messages == old(db.messages) && Unmoved(db)
  {
    r := Threads.AuthorizeThreadAccess(db, threadId, false);
    if r.Fail? {
      return;
    }
    var found := db.AbortStream(ByOrder(threadId, order), ExplicitReason);
    db.Record(Logged(OrderAbortLog(found)));
  }

  /** Aborting the same target twice is the same as aborting it once, and the second
      request finds nothing and so only logs "No stream found". */
  lemma RepeatedAbortIsHarmless(streams: seq<StreamRec>, target: AbortTarget, reason: string, reason': string)
    ensures AbortMatching(AbortMatching(streams, target, reason), target, reason') == AbortMatching(streams, target, reason)
    ensures OrderAbortLog(HasLiveMatch(AbortMatching(streams, target, reason), target)) == "No stream found"
  {
    AbortLeavesNoLiveMatch(streams, target, reason);
  }

  /** `list`: the thread's live streams, with no access check. */
  function List(db: Db, threadId: string): (r: seq<StreamRec>)
    reads db
    ensures forall s :: s in r <==> s in db.streams && s.threadId == threadId && s.state.Streaming?
  {
    db.ListStreams(threadId)
  }

  /** The effects of the loop of `abortStreamByStreamId` over `ss`. */
  function AbortTrace(ss: seq<StreamRec>): seq<Effect> {
    if ss == [] then []
    else AbortTrace(ss[..|ss| - 1]) +
         [Logged("Aborting stream"), AbortRequested(ById(ss[|ss| - 1].streamId), AsyncReason)]
  }

  /** The loop issues exactly one abort per listed stream, by its id and in list order,
      each right after its console line. */
  lemma {:induction false} AbortTraceShape(ss: seq<StreamRec>)
    ensures |AbortTrace(ss)| == 2 * |ss|
    ensures forall k :: 0 <= k < |ss| ==>
      AbortTrace(ss)[2 * k] == Logged("Aborting stream") &&
      AbortTrace(ss)[2 * k + 1] == AbortRequested(ById(ss[k].streamId), AsyncReason)
  {
    if ss != [] {
      var init := ss[..|ss| - 1];
      AbortTraceShape(init);
      assert forall k :: 0 <= k < |init| ==> init[k] == ss[k];
    }
  }

  /** The stream table after aborting each stream of `ss` by its id, in order. */
  function AbortAllById(table: seq<StreamRec>, ss: seq<StreamRec>): seq<StreamRec> {
    if ss == [] then table
    else AbortMatching(AbortAllById(table, ss[..|ss| - 1]), ById(ss[|ss| - 1].streamId), AsyncReason)
  }

  /** A record keeps its identity, and it is still streaming only if it was streaming
      before and no stream of `ss` has its id. */
  lemma {:induction false} AbortAllByIdShape(table: seq<StreamRec>, ss: seq<StreamRec>)
    ensures |AbortAllById(table, ss)| == |table|
    ensures forall k :: 0 <= k < |table| ==>
      (AbortAllById(table, ss)[k].streamId == table[k].streamId &&
       AbortAllById(table, ss)[k].threadId == table[k].threadId && AbortAllById(table, ss)[k].order == table[k].order)
    ensures forall k :: 0 <= k < |table| && AbortAllById(table, ss)[k].state.Streaming? ==>
      (table[k].state.Streaming? && forall j :: 0 <= j < |ss| ==> ss[j].streamId != table[k].streamId)
  {
    if ss != [] {
      var init := ss[..|ss| - 1];
      AbortAllByIdShape(table, init);
      assert forall j :: 0 <= j < |init| ==> init[j] == ss[j];
    }
  }

  /** After the loop over the thread's listed streams, the thread has no live stream left. */
  lemma {:induction false} AbortAllLeavesThreadQuiet(table: seq<StreamRec>, threadId: string)
    ensures forall s :: s in AbortAllById(table, Filter(table, (s: StreamRec) => s.threadId == threadId && s.state.Streaming?)) ==>
      s.threadId != threadId || !s.state.Streaming?
  {
    var ss := Filter(table, (s: StreamRec) => s.threadId == threadId && s.state.Streaming?);
    var r := AbortAllById(table, ss);
    AbortAllByIdShape(table, ss);
    forall k | 0 <= k < |r| && r[k].threadId == threadId ensures !r[k].state.Streaming? {
      if table[k].state.Streaming? {
        // the record was listed, so its own id was aborted
        assert table[k] in ss;
        var j :| 0 <= j < |ss| && ss[j] == table[k];
        assert ss[j].streamId == table[k].streamId;
      }
    }
  }

  /** One more turn of the loop extends the trace by that stream's line and abort. */
  lemma TraceStep(ss: seq<StreamRec>, i: nat)
    requires i < |ss|
    ensures AbortTrace(ss[..i + 1]) ==
      AbortTrace(ss[..i]) + [Logged("Aborting stream"), AbortRequested(ById(ss[i].streamId), AsyncReason)]
  {
    assert ss[..i + 1][..i] == ss[..i];
  }

  /** One more turn of the loop aborts that stream's id in the table. */
  lemma TableStep(table: seq<StreamRec>, ss: seq<StreamRec>, i: nat)
    requires i < |ss|
    ensures AbortAllById(table, ss[..i + 1]) ==
      AbortMatching(AbortAllById(table, ss[..i]), ById(ss[i].streamId), AsyncReason)
  {
    assert ss[..i + 1][..i] == ss[..i];
  }

  /** The console line the handler writes when the thread has no stream. */
  const NoStreamsLog: string := "No streams found"

  /** One turn of the loop of `abortStreamByStreamId`: the console line, then the abort
      of the `i`-th listed stream, which extends the loop's table and trace by one. */
  method AbortOne(db: Db, streams: seq<StreamRec>, i: nat, ghost table: seq<StreamRec>, ghost log: seq<Effect>)
    requires i < |streams| && db.Valid()
    requires db.streams == AbortAllById(table, streams[..i]) && db.effects == log + AbortTrace(streams[..i])
    modifies db
    ensures db.Valid()
    ensures db.streams == AbortAllById(table, streams[..i + 1]) && db.effects == log + AbortTrace(streams[..i + 1])
    ensures db.threads == old(db.threads) && db.messages == old(db.messages) && Unmoved(db)
  {
    db.Record(Logged("Aborting stream"));
    var _ := db.AbortStream(ById(streams[i].streamId), AsyncReason);
    TraceStep(streams, i);
    TableStep(table, streams, i);
  }

  /** The loop of `abortStreamByStreamId`: each stream of `streams`, in order. */
  method AbortEach(db: Db, streams: seq<StreamRec>)
    requires db.Valid()
    modifies db
    ensures db.Valid()
    ensures db.streams == AbortAllById(old(db.streams), streams)
    ensures db.effects == old(db.effects) + AbortTrace(streams)
    ensures db.threads == old(db.threads) && db.messages == old(db.messages) && Unmoved(db)
  {
    ghost var table, log := db.streams, db.effects;
    var i := 0;
    while i < |streams|
      invariant 0 <= i <= |streams|
      invariant db.Valid()
      invariant db.streams == AbortAllById(table, streams[..i])
      invariant db.effects == log + AbortTrace(streams[..i])
      invariant db.threads == old(db.threads) && db.messages == old(db.messages) && Unmoved(db)
    {
      AbortOne(db, streams, i, table, log);
      i := i + 1;
    }
    assert streams[..i] == streams;
  }

  /** `abortStreamByStreamId`: abort every live stream of the thread by its id, in list
      order, logging each; log "No streams found" when there was none. */
  method AbortStreamByStreamId(db: Db, threadId: string)
    requires db.Valid()
    modifies db
    ensures db.Valid()
    ensures db.streams == AbortAllById(old(db.streams), old(db.ListStreams(threadId)))
    ensures db.effects == old(db.effects) + AbortTrace(old(db.ListStreams(threadId))) +
      (if old(db.ListStreams(threadId)) == [] then [Logged(NoStreamsLog)] else [])
    ensures db.threads == old(db.threads) && db.messages == old(db.messages) && Unmoved(db)
  {
    var streams := db.ListStreams(threadId);
    AbortEach(db, streams);
    if |streams| == 0 {
      db.Record(Logged(NoStreamsLog));
    }
  }
}
