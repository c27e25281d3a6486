/** What every run keeps of the handler's own variables, whatever the server, the store and other writers do. */
module ProtocolControl {
  import opened Wrappers
  import opened Data
  import opened History
  import opened Requests
  import opened Protocol

  /** The watcher in use is a recovery exactly while there is a gap; a recovery has no version to resume from, keeps
      none before its snapshots are complete, and hands over no snapshot afterwards. */
  ghost predicate WatchingOk(c: World, st: State, w: Watching) {
    && (st.gap <==> !w.kind.Plain?)
    && (w.initial ==> w.kind.InitialEvents? && w.s.owed)
    && (w.listing ==> w.kind.ListRecovery?)
    && (!w.kind.Plain? && !w.initial && !w.listing ==> w.s.pending == {})
    && (!w.kind.Plain? && w.seen.Some? ==> !w.initial && !w.listing)
    && (w.kind.Plain? && c.bookmarking && st.rv.Some? ==> w.start == st.rv.value && w.s.pending == {})
    && w.base <= w.cut <= |st.out|
    && (w.kind.Plain? ==> w.cut == w.base)
    && (w.initial || w.listing ==> w.cut == |st.out|)
    && (w.kind.ListRecovery? ==> forall j :: w.base <= j < w.cut ==> st.out[j].changeType == CTSnapshot)
    && (forall j :: w.cut <= j < |st.out| ==> st.out[j].changeType != CTSnapshot)
  }

  ghost predicate Control(c: World, st: State) {
    && (st.watchList ==> c.bookmarking)
    && (st.gap ==> st.rv == None)
    && match st.phase
       case Checking => st.rv.Some? && c.bookmarking && !st.gap
       case Resuming => !st.gap && (st.rv.Some? ==> c.bookmarking)
       case Recovering => st.rv == None
       case Opening(_) => st.gap && !st.watchList
       case Streaming(w) => WatchingOk(c, st, w)
       case _ => true
  }

  lemma EmitKeepsControl(c: World, st: State, w: Watching, s': Stream, e: Result<Entry, EntryError>)
    requires Control(c, st) && st.phase == Streaming(w)
    requires s'.owed == w.s.owed && s'.pending <= w.s.pending
    requires e.Ok? && w.listing ==> e.value.changeType == CTSnapshot
    requires e.Ok? && !w.listing && !w.initial ==> e.value.changeType != CTSnapshot
    ensures Control(c, Emit(st, w.(s := s'), e))
  {
  }

  lemma ObjectKeepsControl(c: World, st: State, w: Watching, i: Input)
    requires Control(c, st) && st.phase == Streaming(w) && i.SendObject?
    ensures Control(c, StepStreaming(c, st, w, i))
  {
    var (s', e) := Serve(c.h, w.s, i);
    if e.Some? {
      EmitKeepsControl(c, st, w, s', if w.listing then NewEntry(Pointer(e.value.obj), STWatchList, CTSnapshot)
                                     else Converted(w.initial, Added, e.value.obj));
    }
  }

  lemma ChangeKeepsControl(c: World, st: State, w: Watching, i: Input)
    requires Control(c, st) && st.phase == Streaming(w) && i.SendChange? && !w.listing
    ensures Control(c, StepStreaming(c, st, w, i))
  {
    var (s', e) := Serve(c.h, w.s, i);
    if e.Some? {
      EmitKeepsControl(c, st, w, s', Converted(w.initial, e.value.typ, e.value.obj));
    }
  }

  /** A version is recorded once the initial objects are through. */
  lemma RecordKeepsControl(c: World, st: State, w: Watching, s': Stream, v: nat, o: Outcome)
    requires Control(c, st) && st.phase == Streaming(w) && s'.pending == w.s.pending
    requires !w.kind.Plain? ==> w.s.pending == {}
    ensures Control(c, Record(st, w.(s := s', initial := false, listing := false), v, o))
  {
  }

  lemma BookmarkKeepsControl(c: World, st: State, w: Watching, i: Input)
    requires Control(c, st) && st.phase == Streaming(w) && i.SendBookmark? && !w.listing
    ensures Control(c, StepStreaming(c, st, w, i))
  {
    var (s', e) := Serve(c.h, w.s, i);
    if e.Some? && !(w.initial && !i.annotated) {
      RecordKeepsControl(c, st, w, s', i.version, i.outcome);
      assert w.(s := s', initial := false, listing := false) == w.(s := s', initial := false);
    }
  }

  lemma EndKeepsControl(c: World, st: State, w: Watching, o: Outcome)
    requires Control(c, st) && st.phase == Streaming(w)
    ensures Control(c, StreamEnded(st, w)) && Control(c, Rejected(StreamEnded(st, w), o))
  {
  }

  lemma StreamingKeepsControl(c: World, st: State, w: Watching, i: Input)
    requires Control(c, st) && st.phase == Streaming(w)
    ensures Control(c, StepStreaming(c, st, w, i))
  {
    match i {
      case SendObject(_) => ObjectKeepsControl(c, st, w, i);
      case SendChange => if !w.listing { ChangeKeepsControl(c, st, w, i); }
      case SendBookmark(_, _, _) => if !w.listing { BookmarkKeepsControl(c, st, w, i); }
      case SendStale(o) => EndKeepsControl(c, st, w, o);
      case CloseStream => EndKeepsControl(c, st, w, Done);
      case Persist(o) =>
        if w.listing && w.s.pending == {} {
          RecordKeepsControl(c, st, w, w.s, w.s.pos, o);
          assert w.(s := w.s, initial := false, listing := false) == w.(listing := false);
        }
      case _ =>
    }
  }

  lemma AnswerKeepsControl(c: World, st: State, i: Input)
    requires Control(c, st) && !st.phase.Streaming?
    ensures Control(c, StepConnecting(c, st, i)) && Control(c, StepStartup(c, st, i))
    ensures st.phase.Opening? ==> Control(c, StepOpening(c, st, st.phase.at, i))
  {
  }

  lemma StepKeepsControl(c: World, st: State, i: Input)
    requires Control(c, st)
    ensures Control(c, Step(c, st, i))
  {
    if st.phase.Streaming? {
      StreamingKeepsControl(c, st, st.phase.w, i);
    } else {
      AnswerKeepsControl(c, st, i);
    }
  }

  lemma {:induction false} RunKeepsControl(c: World, inputs: seq<Input>)
    ensures Control(c, Run(c, Init(c), inputs))
    decreases |inputs|
  {
    if inputs != [] {
      RunKeepsControl(c, inputs[..|inputs| - 1]);
      StepKeepsControl(c, Run(c, Init(c), inputs[..|inputs| - 1]), inputs[|inputs| - 1]);
    }
  }

  /** The gap invariant, in every state of every run: whenever the handler asks for a watcher, a gap means that it has no
      version to resume from; and the watcher it reads from is a recovery exactly when there is a gap. */
  lemma GapInvariant(c: World, inputs: seq<Input>)
    ensures var st := Run(c, Init(c), inputs);
            && (st.gap ==> st.rv == None)
            && (st.phase.Streaming? ==> (st.gap <==> !st.phase.w.kind.Plain?))
  {
    RunKeepsControl(c, inputs);
  }

  /** On a recovery stream of listed objects every snapshot precedes every live change; on any recovery stream no
      snapshot follows the end of the initial objects; and a stream that is not a recovery carries none at all. */
  lemma SnapshotsComeFirst(c: World, inputs: seq<Input>)
    ensures var st := Run(c, Init(c), inputs);
            st.phase.Streaming? ==>
              var w := st.phase.w;
              && w.base <= w.cut <= |st.out|
              && (w.kind.Plain? ==> w.cut == w.base)
              && (w.kind.ListRecovery? ==> forall j :: w.base <= j < w.cut ==> st.out[j].changeType == CTSnapshot)
              && (forall j :: w.cut <= j < |st.out| ==> st.out[j].changeType != CTSnapshot)
              && (w.seen.Some? && !w.kind.Plain? ==> w.s.pending == {})
  {
    RunKeepsControl(c, inputs);
  }

  // ---- when bookmarks die -------------------------------------------------------------------------------------

  /** The server rejected version v in this step: the stream opened at v, or whose last bookmark was v, ended with a
      stale version; a request naming v was refused as stale, invalid or bad; or v was found ahead at startup. */
  ghost predicate RejectsVersion(c: World, st: State, i: Input, v: nat) {
    match st.phase
    case Streaming(w) =>
      i.SendStale? && (w.seen == Some(v) || (w.seen == None && w.start == v && w.kind.Plain?))
    case Connecting =>
      i.Refuse? && RejectedResourceVersion(i.error) && RequestOptions(c, st).resourceVersion == Some(v)
    case Resuming =>
      i.Refuse? && RejectedResourceVersion(i.error) && RequestOptions(c, st).resourceVersion == Some(v)
    case Checking => i.Checked? && i.current.Some? && i.current.value < v
    case _ => false
  }

  /** A step by this Reader, from store v to another: what the cases of BookmarksDieOnlyByRejection come to. */
  ghost predicate Justified(c: World, st: State, st': State, i: Input, v: nat) {
    || st'.store == Some(v)
    || (st'.store == None && RejectsVersion(c, st, i, v))
    || (st.phase.Streaming? && i.SendBookmark? && st'.store == Some(i.version))
    || (st.phase.Streaming? && i.Persist? && st'.store == Some(st.phase.w.s.pos) && st.phase.w.s.pending == {})
  }

  lemma StreamJustified(c: World, st: State, w: Watching, i: Input, v: nat)
    requires Control(c, st) && c.bookmarking && st.store == Some(v) && st.phase == Streaming(w)
    ensures Justified(c, st, StepStreaming(c, st, w, i), i, v)
  {
    if i.SendStale? && !w.listing {
      assert Serve(c.h, w.s, i) == (w.s, Some(ErrorEvent(true)));
    }
  }

  lemma AnswerJustified(c: World, st: State, i: Input, v: nat)
    requires Control(c, st) && c.bookmarking && st.store == Some(v)
    requires !st.phase.Streaming? && !i.Foreign? && !FallsBack(st.watchList, i)
    ensures Justified(c, st, Step(c, st, i), i, v)
  {
  }

  /** In any run, with any other writers: a step of this Reader that takes the stored bookmark v away either replaces it
      with a version received in that step, or is the server's rejection of exactly v. Transient errors, ends of streams
      and crashes leave it, and so does the rejection of any other version. */
  lemma BookmarksDieOnlyByRejection(c: World, inputs: seq<Input>, i: Input, v: nat)
    requires c.bookmarking && !i.Foreign?
    requires Run(c, Init(c), inputs).store == Some(v)
    ensures Justified(c, Run(c, Init(c), inputs), Step(c, Run(c, Init(c), inputs), i), i, v)
    ensures FallsBack(Run(c, Init(c), inputs).watchList, i) ==> Step(c, Run(c, Init(c), inputs), i).store == Some(v)
  {
    RunKeepsControl(c, inputs);
    var st := Run(c, Init(c), inputs);
    if !FallsBack(st.watchList, i) {
      if st.phase.Streaming? {
        StreamJustified(c, st, st.phase.w, i, v);
      } else {
        AnswerJustified(c, st, i, v);
      }
    }
  }

  /** A reply that WatchList's feature gate is off takes the stored bookmark v away exactly when the spawner has fallen
      back before, the reply answers a request that resumes from v, and the store lets the entry be cleared. Such a request
      does not mention initial events, so a server whose gate error only answers requests that do never takes one away. */
  lemma GateReplyTakesBookmark(c: World, inputs: seq<Input>, o: Outcome, v: nat)
    requires Run(c, Init(c), inputs).store == Some(v)
    ensures var st := Run(c, Init(c), inputs);
            var st' := Step(c, st, Refuse(WatchListGate, o));
            && (st'.store != Some(v) <==>
                  !st.watchList && (st.phase.Connecting? || st.phase.Resuming?) && st.rv == Some(v) && !o.Failed?)
            && (st'.store != Some(v) ==> st'.store == None && RequestOptions(c, st).sendInitialEvents == None)
    ensures var st := Run(c, Init(c), inputs);
            (st.phase.Connecting? || st.phase.Resuming?) && RequestOptions(c, st).sendInitialEvents.Some? ==>
              Step(c, st, Refuse(WatchListGate, o)) == st.(watchList := false)
  {
    RunKeepsControl(c, inputs);
  }
}
