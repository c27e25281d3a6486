/** connectWatcher, the one loop that makes every watch request of a Reader, and listRecoveryObjects, which recovery
    uses once the loop has fallen back from WatchList. */
module Spawner {
  import opened Wrappers
  import opened Data
  import opened Requests

  /** What is put on spawnCh: a watch from a version (or from none), or a WatchList recovery watch. */
  datatype Request = WatchFrom(resourceVersion: Option<nat>) | InitialEvents

  /** What the promise is set to. ListNeeded is errListRecovery. */
  datatype Answer = Started | Refused(error: ApiError) | ListNeeded

  /** One run of a request's callback: for the k-th request, with these options; `sent` says a watch request reached the
      server, and `reply` is what the callback returned. */
  datatype Call = Call(k: nat, request: Request, options: ListOptions, sent: bool, reply: Answer)

  predicate GateReply(a: Answer) {
    a.Refused? && a.error.WatchListGate?
  }

  /** Every callback ran with the options its request stands for: well formed, from the request's own version, and with
      initial events for a recovery. */
  predicate CallOk(c: Call) {
    && (c.sent <==> c.reply != ListNeeded)
    && (c.sent ==> WellFormed(c.options))
    && match c.request
       case WatchFrom(rv) => c.sent && c.options.resourceVersion == rv
       case InitialEvents => if c.sent then c.options.sendInitialEvents == Some(true) && c.options.resourceVersion == None
                             else c.options.sendInitialEvents == None && !c.options.notOlderThan
  }

  /** WatchList mode, once lost, does not come back. */
  ghost predicate OneWay(log: seq<Call>) {
    forall i, j :: 0 <= i < j < |log| && log[j].options.notOlderThan ==> log[i].options.notOlderThan
  }

  /** Every request asks for bookmarks, or none does. */
  ghost predicate AllAllow(log: seq<Call>, bookmarking: bool) {
    forall i :: 0 <= i < |log| ==> log[i].options.allowBookmarks == bookmarking
  }

  ghost predicate AllOk(log: seq<Call>) {
    forall i :: 0 <= i < |log| ==> CallOk(log[i])
  }

  /** A variable that options point to. */
  class Flag {
    var value: bool

    constructor (value: bool)
      ensures this.value == value
    {
      this.value := value;
    }
  }

  /** metav1.ListOptions as they are in memory: copying them copies the pointer, not what it points to. */
  datatype RawOptions = RawOptions(resourceVersion: Option<nat>, allowBookmarks: bool, notOlderThan: bool, sendInitialEvents: Flag?)

  function Cells(o: RawOptions): set<object> {
    if o.sendInitialEvents == null then {} else {o.sendInitialEvents}
  }

  /** What a request with these options asks for. */
  function ValueOf(o: RawOptions): ListOptions
    reads Cells(o)
  {
    ListOptions(o.resourceVersion, o.allowBookmarks, o.notOlderThan,
                if o.sendInitialEvents == null then None else Some(o.sendInitialEvents.value))
  }

  /** withResourceVersion, on a copy of the options: it points the copy to a new variable instead of writing to the one the
      copy shares. */
  method WithVersion(so: RawOptions, resourceVersion: Option<nat>) returns (o: RawOptions)
    ensures ValueOf(o) == WithResourceVersion(ValueOf(so), resourceVersion)
    ensures o.sendInitialEvents == so.sendInitialEvents || fresh(o.sendInitialEvents)
  {
    o := so;
    if resourceVersion.Some? {
      o := o.(resourceVersion := resourceVersion);
      if o.sendInitialEvents != null {
        var off := new Flag(false);
        o := o.(sendInitialEvents := off);
      }
    }
  }

  class Connector {
    const bookmarking: bool
    const server: (nat, ListOptions) -> Option<ApiError>  // the reply to the n-th callback, if it sends a request
    var so: RawOptions
    var watchListEnabled: bool
    var log: seq<Call>

    ghost predicate Valid()
      reads this, Cells(so)
    {
      && ValueOf(so) == SharedOptions(bookmarking, watchListEnabled) && (watchListEnabled ==> bookmarking)
      && AllOk(log) && OneWay(log) && AllAllow(log, bookmarking)
      && (watchListEnabled ==> forall i :: 0 <= i < |log| ==> log[i].options.notOlderThan)
    }

    constructor (bookmarking: bool, server: (nat, ListOptions) -> Option<ApiError>)
      ensures Valid() && this.bookmarking == bookmarking && watchListEnabled == bookmarking && log == []
      ensures this.server == server
    {
      this.bookmarking, this.server := bookmarking, server;
      watchListEnabled := bookmarking;
      var initialEvents: Flag? := null;
      if bookmarking { initialEvents := new Flag(true); }
      so := RawOptions(None, bookmarking, bookmarking, initialEvents);
      log := [];
    }

    /** req.In(so): the callback works on a copy of the options, and writes neither to the shared ones nor to the variable
        they point to. */
    method RunCallback(k: nat, request: Request) returns (a: Answer)
      requires Valid()
      modifies this`log
      ensures Valid()
      ensures |log| == |old(log)| + 1 && log[..|old(log)|] == old(log)
      ensures var c := log[|old(log)|]; c.k == k && c.request == request && c.reply == a
      ensures log[|old(log)|].options.notOlderThan <==> watchListEnabled
    {
      if request.InitialEvents? && so.sendInitialEvents == null {
        a := ListNeeded;
        log := log + [Call(k, request, ValueOf(so), false, a)];
      } else {
        var o := so;
        if request.WatchFrom? { o := WithVersion(so, request.resourceVersion); }
        var reply := server(|log|, ValueOf(o));
        a := if reply.None? then Started else Refused(reply.value);
        RequestsWellFormed(bookmarking, watchListEnabled, if request.WatchFrom? then request.resourceVersion else None);
        log := log + [Call(k, request, ValueOf(o), true, a)];
      }
    }

    /** One round of the loop: the request is tried, and once more if that is how the server said that it has no
        WatchList. */
    method Serve(k: nat, request: Request) returns (a: Answer)
      requires Valid()
      modifies this
      ensures Valid() && (watchListEnabled ==> old(watchListEnabled))
      ensures |log| > |old(log)| && log[..|old(log)|] == old(log)
      ensures |log| == |old(log)| + 1 + if old(watchListEnabled) && !watchListEnabled then 1 else 0
      ensures forall i :: |old(log)| <= i < |log| ==> log[i].k == k && log[i].request == request
      ensures log[|log| - 1].reply == a
      ensures log[|log| - 1].options.notOlderThan <==> watchListEnabled
      ensures GateReply(a) ==> !watchListEnabled
      ensures old(watchListEnabled) && !watchListEnabled ==> GateReply(log[|old(log)|].reply)
    {
      a := RunCallback(k, request);
      if GateReply(a) && bookmarking && watchListEnabled {
        watchListEnabled := false;
        so := so.(notOlderThan := false, sendInitialEvents := null);
        a := RunCallback(k, request);
      }
    }
  }

  /** The k-th answer is the last reply to the k-th request's own callbacks. */
  ghost predicate AnswersRequest(log: seq<Call>, from: nat, k: nat, request: Request, a: Answer) {
    exists i :: from <= i < |log| && log[i].k == k && log[i].request == request && log[i].reply == a
      && (forall j :: i < j < |log| ==> log[j].k != k)
  }

  /** connectWatcher over any sequence of requests and any server: one answer for each request, at most one callback more
      than there are requests, every request sent well formed and for its own version, and no way back to WatchList. The
      gate's own error only reaches a requester that was served without WatchList. */
  method ConnectWatcher(r: Connector, reqs: seq<Request>) returns (answers: seq<Answer>)
    requires r.Valid() && r.log == []
    modifies r
    ensures r.Valid() && (r.watchListEnabled ==> old(r.watchListEnabled))
    ensures |answers| == |reqs|
    ensures |r.log| == |reqs| + if old(r.watchListEnabled) && !r.watchListEnabled then 1 else 0
    ensures AllOk(r.log) && OneWay(r.log) && AllAllow(r.log, r.bookmarking)
    ensures forall k :: 0 <= k < |reqs| ==> AnswersRequest(r.log, 0, k, reqs[k], answers[k])
    ensures GateRepliesRepeated(r.log)
  {
    answers := [];
    for n := 0 to |reqs|
      invariant r.Valid() && (r.watchListEnabled ==> old(r.watchListEnabled)) && |answers| == n
      invariant |r.log| == n + if old(r.watchListEnabled) && !r.watchListEnabled then 1 else 0
      invariant forall i :: 0 <= i < |r.log| ==> r.log[i].k < n
      invariant forall k :: 0 <= k < n ==> AnswersRequest(r.log, 0, k, reqs[k], answers[k])
      invariant GateRepliesRepeated(r.log)
    {
      ghost var log := r.log;
      var a := r.Serve(n, reqs[n]);
      answers := answers + [a];
      forall k | 0 <= k <= n ensures AnswersRequest(r.log, 0, k, reqs[k], answers[k]) {
        if k < n {
          LogGrows(log, r.log, k, n, reqs[k], answers[k]);
        } else {
          assert r.log[|r.log| - 1].k == k;
        }
      }
      assert forall i :: 0 <= i < |log| ==> r.log[i] == log[i];
    }
  }

  /** A request whose callback met the closed gate runs it once more, without WatchList. */
  ghost predicate GateRepliesRepeated(log: seq<Call>) {
    forall i :: 0 <= i < |log| && GateReply(log[i].reply) && log[i].options.notOlderThan ==>
      i + 1 < |log| && log[i + 1].k == log[i].k && !log[i + 1].options.notOlderThan
  }

  lemma LogGrows(log: seq<Call>, log': seq<Call>, k: nat, n: nat, request: Request, a: Answer)
    requires AnswersRequest(log, 0, k, request, a) && k < n && |log| <= |log'| && log'[..|log|] == log
    requires forall i :: |log| <= i < |log'| ==> log'[i].k == n
    ensures AnswersRequest(log', 0, k, request, a)
  {
    var i :| 0 <= i < |log| && log[i].k == k && log[i].request == request && log[i].reply == a
             && (forall j :: i < j < |log| ==> log[j].k != k);
    assert forall j :: 0 <= j < |log| ==> log'[j] == log[j];
    assert log'[i].k == k;
  }

  // ---- recovery lists -----------------------------------------------------------------------------------------

  /** One reply to a list request: a page with its version ("" is None) and whether it has a continue token. */
  datatype ListReply = Page(items: seq<Object>, version: Option<nat>, more: bool) | ListError(error: ApiError) | NotAList

  datatype ListFailure = Api(error: ApiError) | Inconsistent | Malformed | ContextDone

  function Items(pages: seq<ListReply>): seq<Object> {
    if pages == [] then []
    else Items(pages[..|pages| - 1]) + if pages[|pages| - 1].Page? then pages[|pages| - 1].items else []
  }

  /** The first n replies are the pages of one list at version v: each but the last has a continue token. */
  predicate OneList(replies: seq<ListReply>, n: nat, v: nat) {
    1 <= n <= |replies| &&
    forall i :: 0 <= i < n ==> replies[i].Page? && replies[i].version == Some(v) && (replies[i].more <==> i < n - 1)
  }

  lemma OneListUnique(replies: seq<ListReply>, n: nat, v: nat, n': nat, v': nat)
    requires OneList(replies, n, v) && OneList(replies, n', v')
    ensures n == n' && v == v'
  {
    assert replies[n - 1].more <==> n - 1 < n - 1;
    assert replies[n' - 1].more <==> n' - 1 < n' - 1;
    assert replies[0].version == Some(v) && replies[0].version == Some(v');
  }

  /** listRecoveryObjects succeeds exactly when the server's replies begin with a whole list at one version, and then
      returns all of its objects, page by page, with that version. */
  method ListRecoveryObjects(replies: seq<ListReply>) returns (r: Result<(seq<Object>, nat), ListFailure>)
    ensures r.Ok? ==> exists n: nat :: OneList(replies, n, r.value.1) && r.value.0 == Items(replies[..n])
    ensures forall n: nat, v: nat :: OneList(replies, n, v) ==> r == Ok((Items(replies[..n]), v))
  {
    var objects: seq<Object> := [];
    var resourceVersion: Option<nat> := None;
    var n := 0;
    while true
      invariant 0 <= n <= |replies| && objects == Items(replies[..n])
      invariant n == 0 <==> resourceVersion == None
      invariant forall i :: 0 <= i < n ==> replies[i].Page? && replies[i].more && replies[i].version == resourceVersion
      decreases |replies| - n
    {
      if n == |replies| { return Err(ContextDone); }
      match replies[n] {
        case ListError(e) => return Err(Api(e));
        case NotAList => return Err(Malformed);
        case Page(items, version, more) =>
          if resourceVersion == None { resourceVersion := version; }
          if resourceVersion == None || resourceVersion != version { return Err(Inconsistent); }
          objects := objects + items;
          assert replies[..n + 1][..n] == replies[..n];
          n := n + 1;
          if !more {
            assert OneList(replies, n, resourceVersion.value);
            forall n': nat, v: nat | OneList(replies, n', v) ensures n' == n && Some(v) == resourceVersion {
              OneListUnique(replies, n, resourceVersion.value, n', v);
            }
            return Ok((objects, resourceVersion.value));
          }
      }
    }
  }

  /** Other watchers' requests, which the loop serves while one of them lists. */
  method ServeOthers(r: Connector, k: nat, others: seq<Request>)
    requires r.Valid()
    modifies r
    ensures r.Valid() && (r.watchListEnabled ==> old(r.watchListEnabled))
    ensures |r.log| >= |old(r.log)| && r.log[..|old(r.log)|] == old(r.log)
    ensures forall i :: |old(r.log)| <= i < |r.log| ==> r.log[i].k > k
  {
    for n := 0 to |others|
      invariant r.Valid() && (r.watchListEnabled ==> old(r.watchListEnabled))
      invariant |r.log| >= |old(r.log)| && r.log[..|old(r.log)|] == old(r.log)
      invariant forall i :: |old(r.log)| <= i < |r.log| ==> r.log[i].k > k
    {
      ghost var before := r.log;
      var a := r.Serve(k + 1 + n, others[n]);
      assert forall i :: 0 <= i < |before| ==> r.log[i] == before[i];
    }
  }

  /** getRecoveryWatcher for request k, with any requests of other watchers between its two: without WatchList, it requests
      no watch before a whole list has been read, and the watch then starts at that list's version. */
  method GetRecoveryWatcher(r: Connector, k: nat, others: seq<Request>, replies: seq<ListReply>)
    returns (a: Answer, listed: Option<nat>, failure: Option<ListFailure>)
    requires r.Valid()
    modifies r
    ensures r.Valid() && (r.watchListEnabled ==> old(r.watchListEnabled))
    ensures |r.log| > |old(r.log)| && r.log[..|old(r.log)|] == old(r.log)
    ensures a.ListNeeded? <==> failure.Some?
    ensures forall n: nat, v: nat :: OneList(replies, n, v) ==>
              failure == None && (listed == None || listed == Some(v)) && (!old(r.watchListEnabled) ==> listed == Some(v))
    ensures a.Started? ==>
              var last := r.log[|r.log| - 1];
              && last.k == k && last.sent && last.reply == a
              && if listed == None then last.options.sendInitialEvents == Some(true)
                 else last.options.resourceVersion == listed && !r.watchListEnabled
    ensures listed.Some? ==>
              var last := r.log[|r.log| - 1];
              && (exists n: nat :: OneList(replies, n, listed.value))
              && last.k == k && last.request == WatchFrom(listed) && last.sent && last.reply == a
    ensures forall i :: |old(r.log)| <= i < |r.log| && r.log[i].k == k && r.log[i].sent && !r.log[i].options.notOlderThan ==>
              listed.Some? && r.log[i].options.resourceVersion == listed
    ensures listed == None ==>
              forall i :: |old(r.log)| <= i < |r.log| && r.log[i].k == k ==> !r.log[i].sent || r.log[i].options.notOlderThan
  {
    listed, failure := None, None;
    a := r.Serve(k, InitialEvents);
    assert CallOk(r.log[|r.log| - 1]);
    assert forall i :: |old(r.log)| <= i < |r.log| ==> CallOk(r.log[i]) && r.log[i].k == k && r.log[i].request == InitialEvents;
    if a.ListNeeded? {
      ghost var asked := r.log;
      ServeOthers(r, k, others);
      assert forall i :: 0 <= i < |asked| ==> r.log[i] == asked[i];
      var l := ListRecoveryObjects(replies);
      if l.Err? {
        failure := Some(l.error);
        return;
      }
      listed := Some(l.value.1);
      a := r.Serve(k, WatchFrom(listed));
      assert CallOk(r.log[|r.log| - 1]);
    }
  }
}
