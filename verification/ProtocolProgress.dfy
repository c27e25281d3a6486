/** What the state machine does, and not only what it avoids: which errors end a handler, when a stored bookmark is resumed
    from, what a bookmark, a change or a rejection on a stream comes to, and that a recovery can always complete. */
module ProtocolProgress {
  import opened Wrappers
  import opened Data
  import opened History
  import opened Requests
  import opened Protocol
  import opened ProtocolControl

  // ---- errors -------------------------------------------------------------------------------------------------

  /** The server says of a request that its version is expired or invalid. */
  predicate NamesVersion(e: ApiError) {
    e.Expired? || e.Gone? || e.BadRequest? || e.Invalid? || e.WatchListGate?
  }

  /** A watch request is on its way, and the error answers it instead of making the spawner fall back. */
  predicate AwaitsWatch(st: State, e: ApiError) {
    && (st.phase.Opening? || (st.phase.Connecting? && (st.gap ==> st.watchList)))
    && !(st.watchList && e.WatchListGate?)
  }

  /** In any run: a refused watch ends the handler exactly when access is denied, or when a request without a version is
      bad or invalid. Any other error leaves it connecting, so that it asks again: with nothing changed, unless the error
      rejects the version the request named; then the stored entry is cleared if it is that version, and the next watch
      is a recovery. */
  lemma RefusalEndsExactly(c: World, inputs: seq<Input>, e: ApiError, o: Outcome)
    requires AwaitsWatch(Run(c, Init(c), inputs), e)
    ensures var st := Run(c, Init(c), inputs);
            var st' := Step(c, st, Refuse(e, o));
            var ends := e.Forbidden? || e.Unauthorized? || (st.rv == None && (e.BadRequest? || e.Invalid? || e.WatchListGate?));
            && (st'.phase.Ended? <==> ends)
            && (!ends && !(st.rv.Some? && NamesVersion(e)) ==> st' == st.(phase := Connecting))
            && (!ends && st.rv.Some? && NamesVersion(e) ==>
                  st' == st.(phase := Connecting, gap := true, rv := None,
                             store := if st.store == st.rv && !o.Failed? then None else st.store))
  {
    RunKeepsControl(c, inputs);
  }

  /** Errors that say nothing against the request itself. */
  predicate Passing(st: State, e: ApiError) {
    e.NotFound? || e.Conflict? || e.Other? || (st.rv == None && (e.Expired? || e.Gone?))
  }

  function Refusals(errors: seq<ApiError>): seq<Input> {
    seq(|errors|, i requires 0 <= i < |errors| => Refuse(errors[i], Done))
  }

  /** However often a connecting handler is refused for such reasons, it is where it was. */
  lemma {:induction false} PassingErrorsOnlyDelay(c: World, st: State, errors: seq<ApiError>)
    requires st.phase.Connecting? && (st.gap ==> st.watchList)
    requires forall i :: 0 <= i < |errors| ==> Passing(st, errors[i])
    ensures Run(c, st, Refusals(errors)) == st
    decreases |errors|
  {
    if errors != [] {
      var n := |errors| - 1;
      PassingErrorsOnlyDelay(c, st, errors[..n]);
      assert Refusals(errors)[..n] == Refusals(errors[..n]) && Refusals(errors)[n] == Refuse(errors[n], Done);
      assert st.(phase := Connecting) == st;
    }
  }

  /** The same for a recovery's list: it ends the handler when access is denied, when the request is bad or invalid or its
      object unknown, or when the replies are no list at one version; any other error changes nothing. */
  lemma FailedListEndsExactly(c: World, inputs: seq<Input>, cause: Option<ApiError>)
    requires var st := Run(c, Init(c), inputs); st.phase.Connecting? && st.gap && !st.watchList
    ensures var st := Run(c, Init(c), inputs);
            var st' := Step(c, st, ListFailed(cause));
            var ends := cause.None? || cause.value.Forbidden? || cause.value.Unauthorized? || cause.value.NotFound?
                        || cause.value.BadRequest? || cause.value.Invalid? || cause.value.WatchListGate?;
            (st'.phase.Ended? <==> ends) && (!ends ==> st' == st)
  {
    RunKeepsControl(c, inputs);
  }

  // ---- streams that open --------------------------------------------------------------------------------------

  /** A stream of everything the server has at l has just opened. */
  predicate OpenedAll(c: World, st: State, st': State, kind: WatcherKind, l: nat) {
    && st'.phase.Streaming? && st'.phase.w.kind == kind
    && st'.phase.w.s.pending == StateAt(c.h, l).Keys && st'.phase.w.s.pos == l && st'.phase.w.start == l
    && Untouched(st, st')
  }

  /** A stream has just opened that sends the changes after v and nothing else. */
  predicate ResumedAt(st: State, st': State, v: nat) {
    && st'.phase.Streaming? && st'.phase.w.kind.Plain?
    && st'.phase.w.s.pending == {} && st'.phase.w.s.pos == v && st'.phase.w.start == v
    && Untouched(st, st') && st'.audit == st.audit
  }

  /** Opening a stream is no delivery, keeps no version and leaves the store. */
  predicate Untouched(st: State, st': State) {
    && st'.out == st.out && st'.store == st.store && st'.phase.Streaming?
    && st'.phase.w.seen == None && st'.phase.w.saved == None && st'.phase.w.base == |st.out|
  }

  /** A handler that is connecting, after whatever errors, streams as soon as the server lets it: from its version if it
      has one, from everything if not; and in a gap as a recovery, of initial events or of a list and then a watch. */
  lemma ConnectingStreams(c: World, inputs: seq<Input>, l: nat, any: nat)
    requires var st := Run(c, Init(c), inputs); st.phase.Connecting? && Latest(c, st, l)
    ensures var st := Run(c, Init(c), inputs);
            && (!st.gap && c.bookmarking && st.rv.Some? ==> ResumedAt(st, Step(c, st, Open(l)), st.rv.value))
            && (!st.gap && !(c.bookmarking && st.rv.Some?) ==> OpenedAll(c, st, Step(c, st, Open(l)), Plain, l))
            && (st.gap && st.watchList ==>
                  var st' := Step(c, st, Open(l));
                  OpenedAll(c, st, st', InitialEvents, l) && st'.gap && st'.phase.w.initial && st'.phase.w.s.owed)
            && (st.gap && !st.watchList ==>
                  var st' := Step(c, Step(c, st, Listed(l)), Open(any));
                  OpenedAll(c, st, st', ListRecovery, l) && st'.gap && st'.phase.w.listing)
  {
    RunKeepsControl(c, inputs);
  }

  // ---- startup ------------------------------------------------------------------------------------------------

  /** A Reader that is not running, and whose store holds version v: */
  predicate Stopped(c: World, st: State, v: nat) {
    Idle(st.phase) && c.bookmarking && st.store == Some(v)
  }

  lemma LoadsBookmark(c: World, st: State, same: bool, v: nat)
    requires Stopped(c, st, v)
    ensures Step(c, st, Start(same, true)) ==
              st.(phase := Checking, gap := false, rv := Some(v), watchList := if same then st.watchList else true)
  {
  }

  lemma TwoSteps(c: World, st: State, a: Input, b: Input)
    ensures Run(c, st, [a]) == Step(c, st, a) && Run(c, st, [a, b]) == Step(c, Step(c, st, a), b)
  {
    assert [a, b][..1] == [a] && [a][..0] == [];
    assert Run(c, st, []) == st;
  }

  lemma ThreeSteps(c: World, st: State, a: Input, b: Input, d: Input)
    ensures Run(c, st, [a, b, d]) == Step(c, Step(c, Step(c, st, a), b), d)
  {
    assert [a, b, d][..2] == [a, b];
    TwoSteps(c, st, a, b);
  }

  /** A stored bookmark is used: in the same or in a new process, after a stop or a crash, it is loaded, and unless it is
      found ahead of the server's version the stream that opens sends the changes after it, and nothing again. */
  lemma StoredBookmarkIsResumed(c: World, st: State, same: bool, v: nat, current: Option<nat>, o: Outcome, l: nat)
    requires Stopped(c, st, v) && Latest(c, st, l) && (current.Some? ==> v <= current.value)
    ensures var st' := Run(c, st, [Start(same, true), Checked(current, o), Open(l)]);
            ResumedAt(st, st', v) && st'.rv == Some(v) && !st'.gap
  {
    ThreeSteps(c, st, Start(same, true), Checked(current, o), Open(l));
    LoadsBookmark(c, st, same, v);
  }

  /** What startup does with a bookmark it cannot resume from. */
  predicate ClearedForRecovery(st: State, st': State, o: Outcome) {
    && st'.phase.Recovering? && st'.rv == None && !st'.gap && st'.out == st.out && st'.audit == st.audit
    && st'.store == (if o.Failed? then st.store else None)
  }

  /** A bookmark is given up at startup exactly when it is found ahead, or the server refuses it as expired or invalid;
      any other refusal fails the start and leaves the bookmark. */
  lemma StartupGivesUpExactly(c: World, st: State, same: bool, v: nat, current: Option<nat>, e: ApiError, o: Outcome)
    requires Stopped(c, st, v)
    ensures current.Some? && current.value < v ==>
              ClearedForRecovery(st, Run(c, st, [Start(same, true), Checked(current, o)]), o)
    ensures (current.Some? ==> v <= current.value) && (e.WatchListGate? ==> same && !st.watchList) ==>
              var st' := Run(c, st, [Start(same, true), Checked(current, o), Refuse(e, o)]);
              if NamesVersion(e) then ClearedForRecovery(st, st', o) else st'.phase.Ended? && st'.store == st.store && st'.out == st.out
  {
    TwoSteps(c, st, Start(same, true), Checked(current, o));
    ThreeSteps(c, st, Start(same, true), Checked(current, o), Refuse(e, o));
    LoadsBookmark(c, st, same, v);
  }

  /** Startup's recovery: initial events at once, or a gap that the handler closes with a list. */
  lemma StartupRecovers(c: World, inputs: seq<Input>, l: nat)
    requires var st := Run(c, Init(c), inputs); st.phase.Recovering? && Latest(c, st, l)
    ensures var st := Run(c, Init(c), inputs);
            st.watchList ==>
              var st' := Step(c, st, Open(l));
              OpenedAll(c, st, st', InitialEvents, l) && st'.gap && st'.phase.w.initial && st'.phase.w.s.owed
    ensures var st := Run(c, Init(c), inputs);
            !st.watchList ==> Step(c, st, NoWatchList) == st.(phase := Connecting, gap := true)
  {
    RunKeepsControl(c, inputs);
  }

  /** Without a bookmark, or one that cannot be loaded, a Reader starts with everything; a new process tries WatchList
      again, and the same one does not once it has fallen back. */
  lemma StartsWithEverything(c: World, st: State, same: bool, loaded: bool, l: nat)
    requires Idle(st.phase) && Latest(c, st, l) && !(c.bookmarking && loaded && st.store.Some?)
    ensures var st' := Run(c, st, [Start(same, loaded), Open(l)]);
            OpenedAll(c, st, st', Plain, l) && st'.rv == None && !st'.gap && st'.watchList == if same then st.watchList else c.bookmarking
  {
    TwoSteps(c, st, Start(same, loaded), Open(l));
  }

  // ---- events -------------------------------------------------------------------------------------------------

  /** The server may send this bookmark, and the stream is past its initial objects or the bookmark ends them. */
  predicate Counts(w: Watching, v: nat, annotated: bool) {
    && !w.listing && w.s.pending == {} && v == w.s.pos
    && (if annotated then w.s.owed else !w.initial)
  }

  lemma CountsStep(c: World, st: State, annotated: bool, o: Outcome)
    requires st.phase.Streaming? && Counts(st.phase.w, st.phase.w.s.pos, annotated)
    ensures var v := st.phase.w.s.pos;
            var kept := Step(c, st, SendBookmark(v, annotated, o));
            && kept.store == (if o.Failed? || st.phase.w.saved == Some(v) then st.store else Some(v))
            && kept.phase.Streaming? && kept.phase.w.seen == Some(v) && !kept.phase.w.initial && !kept.phase.w.listing
            && kept.phase.w.saved == (if o.Done? then Some(v) else st.phase.w.saved)
            && kept.out == st.out && kept.audit == st.audit
  {
  }

  lemma ResumesAfter(c: World, st: State, v: nat, l: nat)
    requires st.phase.Streaming? && !st.phase.w.listing && st.phase.w.seen == Some(v) && Latest(c, st, l)
    ensures var ended := Step(c, st, CloseStream);
            && ended == st.(phase := Connecting, rv := Some(v), gap := false)
            && (c.bookmarking ==> ResumedAt(ended, Step(c, ended, Open(l)), v))
  {
  }

  /** A bookmark that counts is stored, unless it is the one stored last on this stream, and is what the next stream resumes
      from, whatever became of the store. */
  lemma BookmarkIsKept(c: World, inputs: seq<Input>, annotated: bool, o: Outcome, l: nat)
    requires var st := Run(c, Init(c), inputs);
             st.phase.Streaming? && Counts(st.phase.w, st.phase.w.s.pos, annotated) && Latest(c, st, l)
    ensures var st := Run(c, Init(c), inputs);
            var v := st.phase.w.s.pos;
            var kept := Step(c, st, SendBookmark(v, annotated, o));
            var ended := Step(c, kept, CloseStream);
            && kept.store == (if o.Failed? || st.phase.w.saved == Some(v) then st.store else Some(v))
            && kept.phase.Streaming? && kept.phase.w.seen == Some(v) && !kept.phase.w.initial && kept.out == st.out
            && kept.phase.w.saved == (if o.Done? then Some(v) else st.phase.w.saved)
            && ended == kept.(phase := Connecting, rv := Some(v), gap := false)
            && (c.bookmarking ==> ResumedAt(ended, Step(c, ended, Open(l)), v))
  {
    var st := Run(c, Init(c), inputs);
    CountsStep(c, st, annotated, o);
    ResumesAfter(c, Step(c, st, SendBookmark(st.phase.w.s.pos, annotated, o)), st.phase.w.s.pos, l);
  }

  /** Likewise the version of a list, once all of its objects are delivered. */
  lemma ListVersionIsKept(c: World, st: State, o: Outcome)
    requires st.phase.Streaming? && st.phase.w.listing && st.phase.w.s.pending == {} && st.phase.w.saved == None
    ensures var v := st.phase.w.s.pos;
            var kept := Step(c, st, Persist(o));
            && kept.store == (if o.Failed? then st.store else Some(v)) && kept.out == st.out
            && kept.phase.Streaming? && !kept.phase.w.listing && kept.phase.w.seen == Some(v) && kept.phase.w.s == st.phase.w.s
  {
  }

  /** An error event that is no rejection, an event without a usable object, and an ordinary bookmark before the end of a
      recovery's initial events change nothing at all. */
  lemma NoiseChangesNothing(c: World, st: State, v: nat, o: Outcome)
    requires st.phase.Streaming?
    ensures Step(c, st, SendError) == st && Step(c, st, SendUnusable) == st
    ensures st.phase.w.initial ==> Step(c, st, SendBookmark(v, false, o)).store == st.store
    ensures st.phase.w.initial && st.phase.w.s.pos <= st.audit.hw ==> Step(c, st, SendBookmark(v, false, o)) == st
  {
    var w := st.phase.w;
    assert st.(phase := Streaming(w)) == st;
    assert st.(phase := Streaming(w.(s := w.s)), audit := st.audit.(hw := Max(st.audit.hw, w.s.pos))).store == st.store;
  }

  /** A stream rejected as stale: the version it stood for is cleared, and the next watch is a recovery. */
  lemma StaleStreamRecovers(c: World, st: State, o: Outcome)
    requires st.phase.Streaming? && !st.phase.w.listing
    ensures var version := if st.phase.w.seen.Some? then st.phase.w.seen else st.rv;
            Step(c, st, SendStale(o)) ==
              st.(phase := Connecting, gap := true, rv := None,
                  store := if version.Some? && st.store == version && !o.Failed? then None else st.store)
  {
  }

  /** A stream that ends before it brought a version leaves the handler with the one it had. */
  lemma ClosedStreamReconnects(c: World, st: State)
    requires st.phase.Streaming? && !st.phase.w.listing && st.phase.w.seen == None
    ensures Step(c, st, CloseStream) == st.(phase := Connecting)
  {
  }

  /** Every outstanding object that is sent is delivered as it is, as a snapshot on a recovery and as an addition otherwise. */
  lemma ObjectIsDelivered(c: World, inputs: seq<Input>, u: Uid)
    requires var st := Run(c, Init(c), inputs);
             st.phase.Streaming? && u in st.phase.w.s.pending && u in StateAt(c.h, st.phase.w.s.pos)
    ensures var st := Run(c, Init(c), inputs);
            var w, st' := st.phase.w, Step(c, st, SendObject(u));
            && st'.phase.Streaming? && st'.phase.w == w.(s := w.s.(pending := w.s.pending - {u}), cut := st'.phase.w.cut)
            && st'.store == st.store && st'.rv == st.rv && st'.gap == st.gap
            && |st'.out| == |st.out| + 1 && st'.out[..|st.out|] == st.out
            && var e := st'.out[|st.out|];
               && e.uid == u && e.data == StateAt(c.h, w.s.pos)[u] && e.sourceType == STWatchList
               && e.changeType == (if w.kind.Plain? then CTAdd else CTSnapshot)
  {
    RunKeepsControl(c, inputs);
    StateObjects(c.h, Run(c, Init(c), inputs).phase.w.s.pos);
  }

  /** Every change is delivered once its turn comes: what was put or deleted, as an addition, an update or a deletion; only
      before the end of initial events an addition is a snapshot too. */
  lemma ChangeIsDelivered(c: World, st: State)
    requires st.phase.Streaming? && !st.phase.w.listing && st.phase.w.s.pending == {} && st.phase.w.s.pos < |c.h|
    ensures var w := st.phase.w;
            var change, st' := c.h[w.s.pos], Step(c, st, SendChange);
            && st'.phase.Streaming? && st'.phase.w == w.(s := w.s.(pos := w.s.pos + 1), cut := st'.phase.w.cut)
            && st'.store == st.store && st'.rv == st.rv && st'.gap == st.gap
            && match change
               case Elsewhere => st'.out == st.out
               case Del(obj) => st'.out == st.out + [EntryOf(obj, CTDelete)]
               case Put(obj) =>
                 st'.out == st.out + [EntryOf(obj, if obj.uid in StateAt(c.h, w.s.pos) then CTUpdate
                                                   else if w.initial then CTSnapshot else CTAdd)]
  {
  }

  // ---- recovery can complete ----------------------------------------------------------------------------------

  /** st' is st with everything that was outstanding delivered. */
  predicate AllDelivered(st: State, st': State) {
    && st.phase.Streaming? && st'.phase.Streaming?
    && st'.phase.w == st.phase.w.(s := st.phase.w.s.(pending := {}), cut := st'.phase.w.cut)
    && st'.store == st.store && st'.rv == st.rv && st'.gap == st.gap
  }

  lemma RunFirst(c: World, st: State, i: Input, rest: seq<Input>)
    ensures Run(c, st, [i] + rest) == Run(c, Step(c, st, i), rest)
  {
    RunConcat(c, st, [i], rest);
    TwoSteps(c, st, i, i);
  }

  lemma DeliveredLater(st: State, st': State, st'': State, u: Uid)
    requires st.phase.Streaming? && st'.phase.Streaming? && AllDelivered(st', st'')
    requires st'.phase.w == st.phase.w.(s := st.phase.w.s.(pending := st.phase.w.s.pending - {u}), cut := st'.phase.w.cut)
    requires st'.store == st.store && st'.rv == st.rv && st'.gap == st.gap
    ensures AllDelivered(st, st'')
  {
  }

  lemma ObjectStep(c: World, st: State, u: Uid)
    requires st.phase.Streaming? && u in st.phase.w.s.pending && u in StateAt(c.h, st.phase.w.s.pos)
    ensures var st' := Step(c, st, SendObject(u));
            && st'.phase.Streaming?
            && st'.phase.w == st.phase.w.(s := st.phase.w.s.(pending := st.phase.w.s.pending - {u}), cut := st'.phase.w.cut)
            && st'.store == st.store && st'.rv == st.rv && st'.gap == st.gap
  {
    StateObjects(c.h, st.phase.w.s.pos);
  }

  lemma {:induction false} CanDeliverAll(c: World, st: State) returns (rest: seq<Input>)
    requires st.phase.Streaming? && st.phase.w.s.pending <= StateAt(c.h, st.phase.w.s.pos).Keys
    ensures AllDelivered(st, Run(c, st, rest))
    decreases if st.phase.Streaming? then st.phase.w.s.pending else {}
  {
    if st.phase.w.s.pending == {} { return []; }
    var u :| u in st.phase.w.s.pending;
    ObjectStep(c, st, u);
    var st' := Step(c, st, SendObject(u));
    var more := CanDeliverAll(c, st');
    DeliveredLater(st, st', Run(c, st', more), u);
    RunFirst(c, st, SendObject(u), more);
    rest := [SendObject(u)] + more;
  }

  /** The gap is closed over version l, and l is stored. */
  predicate Recovered(st: State, l: nat) {
    st.phase.Connecting? && !st.gap && st.rv == Some(l) && st.store == Some(l)
  }

  /** A recovery stream at its beginning. */
  predicate AtBeginning(c: World, st: State, l: nat) {
    && st.phase.Streaming? && st.phase.w.s.pending == StateAt(c.h, l).Keys && st.phase.w.s.pos == l && st.phase.w.saved == None
    && (if st.phase.w.listing then !st.phase.w.initial else st.phase.w.initial && st.phase.w.s.owed)
  }

  lemma ClosesWith(c: World, st: State, v: nat)
    requires st.phase.Streaming? && !st.phase.w.listing && st.phase.w.seen == Some(v) && st.store == Some(v)
    ensures Recovered(Step(c, st, CloseStream), v)
  {
  }

  lemma BoundaryCloses(c: World, st: State, l: nat)
    requires st.phase.Streaming? && st.phase.w.s.pending == {} && st.phase.w.s.pos == l && st.phase.w.saved == None
    requires !st.phase.w.listing && st.phase.w.initial && st.phase.w.s.owed
    ensures Recovered(Run(c, st, [SendBookmark(l, true, Done), CloseStream]), l)
  {
    CountsStep(c, st, true, Done);
    TwoSteps(c, st, SendBookmark(l, true, Done), CloseStream);
    ClosesWith(c, Step(c, st, SendBookmark(l, true, Done)), l);
  }

  lemma ListCloses(c: World, st: State, l: nat)
    requires st.phase.Streaming? && st.phase.w.s.pending == {} && st.phase.w.s.pos == l && st.phase.w.saved == None
    requires st.phase.w.listing
    ensures Recovered(Run(c, st, [Persist(Done), CloseStream]), l)
  {
    ListVersionIsKept(c, st, Done);
    TwoSteps(c, st, Persist(Done), CloseStream);
    ClosesWith(c, Step(c, st, Persist(Done)), l);
  }

  /** A recovery stream whose initial objects can all be sent, and which then brings its boundary, or whose list can all be
      delivered and persisted, closes the gap. */
  lemma StreamCanRecover(c: World, st: State, l: nat) returns (rest: seq<Input>)
    requires AtBeginning(c, st, l)
    ensures Recovered(Run(c, st, rest), l)
  {
    var sends := CanDeliverAll(c, st);
    var sent := Run(c, st, sends);
    var last;
    if st.phase.w.listing {
      ListCloses(c, sent, l);
      last := [Persist(Done), CloseStream];
    } else {
      BoundaryCloses(c, sent, l);
      last := [SendBookmark(l, true, Done), CloseStream];
    }
    RunConcat(c, st, sends, last);
    rest := sends + last;
  }

  lemma GapOpens(c: World, inputs: seq<Input>, l: nat) returns (first: seq<Input>)
    requires var st := Run(c, Init(c), inputs); st.phase.Connecting? && st.gap && Latest(c, st, l)
    ensures AtBeginning(c, Run(c, Run(c, Init(c), inputs), first), l)
  {
    var st := Run(c, Init(c), inputs);
    ConnectingStreams(c, inputs, l, 0);
    RunKeepsControl(c, inputs);
    TwoSteps(c, st, Open(l), Open(l));
    TwoSteps(c, st, Listed(l), Open(0));
    if st.watchList {
      first := [Open(l)];
    } else {
      first := [Listed(l), Open(0)];
    }
  }

  /** From every gap in every run there is a way out: the recovery can open, deliver everything and close the gap over the
      server's latest version, with WatchList or, after the fallback, with a list. */
  lemma GapCanClose(c: World, inputs: seq<Input>, l: nat)
    requires var st := Run(c, Init(c), inputs); st.phase.Connecting? && st.gap && Latest(c, st, l)
    ensures exists rest :: Recovered(Run(c, Init(c), inputs + rest), l)
  {
    var st := Run(c, Init(c), inputs);
    var first := GapOpens(c, inputs, l);
    var rest := StreamCanRecover(c, Run(c, st, first), l);
    RunConcat(c, st, first, rest);
    RunConcat(c, Init(c), inputs, first + rest);
  }
}
