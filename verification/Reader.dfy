/** The watchlist Reader as the source writes it: nested loops over fields and local variables, for one resource. The
    environment is a sequence of inputs, consumed one by one. A ghost copy of the state machine takes a step with every
    input consumed, and the methods prove that their own variables keep up with it. */
module Reader {
  import opened Wrappers
  import opened Data
  import opened History
  import opened Requests
  import opened Protocol
  import opened ProtocolControl
  import opened ProtocolCoverage

  datatype RecoveryMode = NotSet | InitialEventsRecovery | ListRecoveryOf(objects: Objects, at: nat)

  /** A watch.Interface, wrapped as a recoveryWatcher unless its kind is Plain, with the server's half of the stream. */
  class Watcher {
    const kind: WatcherKind
    var mode: RecoveryMode
    var s: Stream
    var stopped: bool

    constructor (kind: WatcherKind, mode: RecoveryMode, s: Stream)
      ensures this.kind == kind && this.mode == mode && this.s == s && !stopped
    {
      this.kind, this.mode, this.s, stopped := kind, mode, s, false;
    }

    method Stop()
      modifies this`stopped
      ensures stopped
    {
      stopped := true;
    }
  }

  const NOT_WATCHING := Watching(Plain, Stream({}, 0, false), false, false, None, None, 0, 0, 0)

  /** How watchEvents and watchEvent return: with io.EOF or no error, or with the stream's version rejected as stale,
      together with the reply the store will give when that version is cleared. */
  datatype Ending = Continue | EOF | Stale(outcome: Outcome)

  /** Inputs that reach a running Reader at any moment. */
  predicate Ambient(watchList: bool, i: Input) {
    FallsBack(watchList, i) || i.GateClosed? || i.Foreign? || i.Cancel? || i.Crash? || i.Start?
  }

  function AfterAmbient(st: State, i: Input): State {
    if FallsBack(st.watchList, i) then st.(watchList := false)
    else
    match i
    case GateClosed => st
    case Foreign(v) => st.(store := v)
    case Crash => st.(phase := Down)
    case Cancel => st.(phase := Ended)
    case _ => st
  }

  lemma AmbientStep(c: World, st: State, i: Input)
    requires Ambient(st.watchList, i) && !Idle(st.phase)
    ensures Step(c, st, i) == AfterAmbient(st, i)
  {
  }

  lemma StreamStep(c: World, st: State, i: Input)
    requires st.phase.Streaming? && !st.phase.w.listing && !Ambient(st.watchList, i)
    ensures var w := st.phase.w;
            var r := Serve(c.h, w.s, i);
            Step(c, st, i) ==
              if i.CloseStream? then StreamEnded(st, w)
              else if r.1.None? then st.(phase := Streaming(w.(s := r.0)), audit := st.audit.(hw := Max(st.audit.hw, r.0.pos)))
              else OnEvent(st, w.(s := r.0), r.1.value, OutcomeOf(i))
  {
  }

  /** One input while listed objects are delivered. */
  lemma ListStep(c: World, st: State, i: Input)
    requires st.phase.Streaming? && st.phase.w.listing && !Ambient(st.watchList, i)
    ensures var w := st.phase.w;
            Step(c, st, i) ==
              if i.Persist? && w.s.pending == {} then Record(st, w.(listing := false), w.s.pos, i.outcome)
              else if i.SendObject? && Sendable(c.h, w.s, i.uid) then
                Emit(st, w.(s := w.s.(pending := w.s.pending - {i.uid})),
                     NewEntry(Pointer(StateAt(c.h, w.s.pos)[i.uid]), STWatchList, CTSnapshot))
              else st
  {
  }

  predicate Sendable(h: seq<Change>, s: Stream, u: Uid) {
    u in s.pending && u in StateAt(h, s.pos) && StateAt(h, s.pos)[u].kind != Unsupported
  }

  /** The watcher is a new one and x are watchEvents' variables before it has read anything. */
  ghost predicate JustOpened(c: World, w: Watcher, x: Watching)
    reads w
  {
    && x.kind == w.kind && x.seen == None && x.saved == None
    && x.initial == w.kind.InitialEvents? && x.listing == w.kind.ListRecovery?
    && match w.kind
       case Plain => w.mode == NotSet && x.s == w.s
       case InitialEvents => w.mode == InitialEventsRecovery && x.s == w.s
       case ListRecovery =>
         && w.mode == ListRecoveryOf(StateAt(c.h, w.s.pos), w.s.pos)
         && x.s == w.s.(pending := StateAt(c.h, w.s.pos).Keys) && w.s.pending == {}
  }

  /** The handler is waiting for an answer. */
  predicate Waiting(p: Phase) {
    p.Connecting? || p.Opening? || p.Checking? || p.Resuming? || p.Recovering?
  }

  /** i answers what the handler is waiting for, from a server that has shown versions up to `shown`. */
  predicate Answers(c: World, watchList: bool, shown: nat, p: Phase, gap: bool, i: Input) {
    match p
    case Connecting =>
      (match i
       case Open(l) => shown <= l <= |c.h| && (gap ==> watchList)
       case Refuse(_, _) => gap ==> watchList
       case Listed(l) => shown <= l <= |c.h| && gap && !watchList
       case ListFailed(_) => gap && !watchList
       case _ => false)
    case Opening(_) => i.Open? || i.Refuse?
    case Checking => i.Checked?
    case Resuming => i.Refuse? || (i.Open? && shown <= i.version <= |c.h|)
    case Recovering => if watchList then i.Refuse? || (i.Open? && shown <= i.version <= |c.h|) else i.NoWatchList?
    case _ => false
  }

  lemma NoAnswer(c: World, st: State, i: Input)
    requires Waiting(st.phase) && !Ambient(st.watchList, i) && !Answers(c, st.watchList, st.audit.hw, st.phase, st.gap, i)
    ensures Step(c, st, i) == st
  {
  }

  lemma ConnectingAnswer(c: World, st: State, i: Input)
    requires st.phase.Connecting? && !FallsBack(st.watchList, i) && Answers(c, st.watchList, st.audit.hw, st.phase, st.gap, i)
    ensures Step(c, st, i) ==
      match i
      case Open(l) => if st.gap then OpenInitialEvents(c, st, l) else OpenPlain(c, st, l)
      case Refuse(e, o) => RetryError(st, e, false, o)
      case Listed(l) => st.(phase := Opening(l), audit := st.audit.(hw := l))
      case ListFailed(cause) => RetryError(st, ListError(cause), ListStops(cause), Done)
      case _ => st
  {
  }

  lemma OpeningAnswer(c: World, st: State, at: nat, i: Input)
    requires st.phase == Opening(at) && (i.Open? || i.Refuse?) && !FallsBack(st.watchList, i)
    ensures Step(c, st, i) == if i.Open? then OpenListed(c, st, at) else RetryError(st, i.error, false, i.outcome)
  {
  }

  lemma StartupAnswer(c: World, st: State, i: Input)
    requires st.phase.Checking? || st.phase.Resuming? || st.phase.Recovering?
    requires Answers(c, st.watchList, st.audit.hw, st.phase, st.gap, i) && !FallsBack(st.watchList, i)
    ensures Step(c, st, i) == StepStartup(c, st, i)
  {
  }

  lemma TraceStep(c: World, all: seq<Input>, done: seq<Input>, inputs: seq<Input>)
    requires done + inputs == all && inputs != []
    ensures done + [inputs[0]] + inputs[1..] == all
    ensures Run(c, Init(c), done + [inputs[0]]) == Step(c, Run(c, Init(c), done), inputs[0])
  {
    RunSnoc(c, Init(c), done, inputs[0]);
    assert [inputs[0]] + inputs[1..] == inputs;
  }

  class Reader {
    const c: World
    ghost const all: seq<Input>   // everything the environment does
    var inputs: seq<Input>        // what it has still to do
    var watchList: bool           // the spawner's watchListEnabled
    var dataCh: seq<Entry>
    var bookmarks: Option<nat>    // the store's entry
    var shown: nat                // the latest version the server has shown this Reader
    var ctxDone: bool             // the context is cancelled
    var killed: bool              // the process died, or the inputs end here
    ghost var done: seq<Input>
    ghost var m: State
    ghost var watchers: set<Watcher>  // every watcher ever opened

    ghost predicate Traced()
      reads this
    {
      done + inputs == all && m == Run(c, Init(c), done)
    }

    /** The shared fields are those of st. */
    ghost predicate Matches(st: State)
      reads this
    {
      st.watchList == watchList && st.out == dataCh && st.store == bookmarks && st.audit.hw == shown
    }

    /** The machine is streaming with watchEvents' variables x, from a watcher whose server half is s. */
    ghost predicate Tracks(x: Watching, s: Stream)
      reads this
    {
      Matches(m) && m.phase == Streaming(x) && x.s == s && !ctxDone && !killed
    }

    /** A context that is done, or a process that died, leaves nothing to keep up with but the shared fields. */
    ghost predicate Halted()
      reads this
    {
      && Matches(m) && (ctxDone || killed)
      && (ctxDone && !killed ==> m.phase.Ended?)
      && (killed && inputs != [] ==> m.phase.Down?)
    }

    constructor (c: World, inputs: seq<Input>)
      ensures Traced() && Matches(m) && m == Init(c) && !ctxDone && !killed && watchers == {}
      ensures this.c == c && this.inputs == inputs && all == inputs && done == []
    {
      this.c, this.inputs, all := c, inputs, inputs;
      watchList, dataCh, bookmarks, shown, ctxDone, killed := c.bookmarking, [], None, 0, false, false;
      done, m, watchers := [], Init(c), {};
    }

    /** The next thing the environment does; the machine takes its step. */
    method Take() returns (i: Input)
      requires Traced() && inputs != []
      modifies this`inputs, this`done, this`m
      ensures Traced() && i == old(inputs)[0] && inputs == old(inputs)[1..]
      ensures m == Step(c, old(m), i)
    {
      i := inputs[0];
      ghost var before := m;
      TraceStep(c, all, done, inputs);
      inputs := inputs[1..];
      done := done + [i];
      m := Step(c, before, i);
    }

    /** An input that is not about the stream or request at hand. */
    method TakeAmbient(i: Input, ghost pre: State)
      requires Matches(pre) && Ambient(watchList, i) && m == AfterAmbient(pre, i)
      modifies this`watchList, this`bookmarks, this`ctxDone, this`killed
      ensures Matches(m)
      ensures ctxDone == (old(ctxDone) || i.Cancel?) && killed == (old(killed) || i.Crash?)
    {
      if FallsBack(watchList, i) {
        watchList := false;
        return;
      }
      match i {
        case Foreign(v) => bookmarks := v;
        case Cancel => ctxDone := true;
        case Crash => killed := true;
        case _ =>
      }
    }

    // ---- watchEvents ------------------------------------------------------------------------------------------

    /** One input while the stream is read: an event, the end of the stream, or neither. The machine has already acted
        on it; `pre` is its state before. */
    method Poll(w: Watcher, ghost x: Watching) returns (e: Option<Event>, o: Outcome, closed: bool, ghost pre: State)
      requires Traced() && Tracks(x, w.s) && !x.listing && inputs != []
      modifies this`inputs, this`done, this`m, this`watchList, this`bookmarks, this`ctxDone, this`killed, this`shown, w`s
      ensures Traced() && inputs == old(inputs)[1..] && pre == old(m)
      ensures ctxDone || killed ==> Halted() && e.None?
      ensures !ctxDone && !killed && e.None? && !closed ==> Tracks(x.(s := w.s), w.s) && m.gap == pre.gap && m.rv == pre.rv
      ensures !ctxDone && !killed && (e.Some? || closed) ==> Matches(pre)
      ensures closed ==> m == StreamEnded(pre, x) && e.None? && !ctxDone && !killed
      ensures e.Some? ==> m == OnEvent(pre, x.(s := w.s), e.value, o)
    {
      pre, e, o, closed := m, None, Done, false;
      var i := Take();
      if Ambient(watchList, i) {
        AmbientStep(c, pre, i);
        TakeAmbient(i, pre);
      } else {
        StreamStep(c, pre, i);
        closed := i.CloseStream?;
        if !closed {
          var r := Serve(c.h, w.s, i);
          w.s, e, o := r.0, r.1, OutcomeOf(i);
          if e.None? { shown := Max(shown, w.s.pos); }
        }
      }
    }

    /** chans.Get: the next event, or None when the stream has closed, the context is done or the process died. */
    method Get(w: Watcher, ghost x: Watching) returns (e: Option<Event>, o: Outcome, ghost pre: State)
      requires Traced() && Tracks(x, w.s) && !x.listing
      modifies this`inputs, this`done, this`m, this`watchList, this`bookmarks, this`ctxDone, this`killed, this`shown, w`s
      ensures Traced() && |inputs| <= |old(inputs)|
      ensures ctxDone || killed ==> Halted() && e.None?
      ensures !ctxDone && !killed ==> Matches(pre) && pre.phase.Streaming? && pre.phase.w == x.(s := pre.phase.w.s)
      ensures !ctxDone && !killed ==> pre.gap == old(m).gap && pre.rv == old(m).rv
      ensures !ctxDone && !killed && e.None? ==> m == StreamEnded(pre, pre.phase.w)
      ensures e.Some? ==> |inputs| < |old(inputs)| && m == OnEvent(pre, x.(s := w.s), e.value, o)
    {
      pre, e, o := m, None, Done;
      while inputs != []
        invariant Traced() && Tracks(x.(s := w.s), w.s) && |inputs| <= |old(inputs)|
        invariant m.gap == old(m).gap && m.rv == old(m).rv
        decreases |inputs|
      {
        var closed;
        e, o, closed, pre := Poll(w, x.(s := w.s));
        if e.Some? || closed || ctxDone || killed { return; }
      }
      killed := true;
      e := None;
    }

    /** chans.Put of a converted entry; one that could not be converted is only logged. */
    method Send(entry: Result<Entry, EntryError>, pos: nat, ghost pre: State, ghost x: Watching)
      requires Matches(pre) && m == Emit(pre, x, entry) && x.s.pos == pos
      modifies this`dataCh, this`shown
      ensures Matches(m) && m.gap == pre.gap && m.rv == pre.rv
      ensures m.phase.Streaming? && m.phase.w == x.(cut := m.phase.w.cut)
    {
      if entry.Ok? {
        dataCh := dataCh + [entry.value];
        shown := Max(shown, pos);
      }
    }

    /** watchEvent's switch over the event's type: the version, if it is one to keep, and whether reading goes on. */
    method Handle(w: Watcher, e: Event, initialEvents: bool, o: Outcome, ghost pre: State, ghost x: Watching)
      returns (rv: Option<nat>, ending: Ending, initial: bool)
      requires Matches(pre) && m == OnEvent(pre, x, e, o) && x.s == w.s && x.initial == initialEvents
      modifies this`dataCh, this`shown, w`stopped
      ensures ending.Continue? || (ending == Stale(o) && w.stopped && rv.None? && m == Rejected(StreamEnded(pre, x), o))
      ensures ending.Continue? ==> w.stopped == old(w.stopped)
      ensures ending.Continue? && rv.Some? ==> Matches(pre) && m == Record(pre, x.(initial := initial), rv.value, o)
      ensures ending.Continue? && rv.None? ==> m.phase.Streaming? && Matches(m) && m.gap == pre.gap && m.rv == pre.rv
      ensures ending.Continue? && rv.None? ==> initial == initialEvents && m.phase.w == x.(cut := m.phase.w.cut)
      ensures ending.Stale? ==> Matches(pre)
    {
      rv, ending, initial := None, Continue, initialEvents;
      match e {
        case BookmarkAt(version, annotated) =>
          if initial {
            // Until the snapshots are complete only the bookmark that ends them counts.
            if !annotated { return; }
            initial := false;
          }
          rv := Some(version);
        case ErrorEvent(stale) =>
          if stale {
            w.Stop();
            ending := Stale(o);
          }
        case Unusable =>
        case Change(typ, obj) =>
          var entry := if initial && typ == Added then NewEntry(Pointer(obj), STWatchList, CTSnapshot)
                       else WatchEventToEntry(typ, Pointer(obj));
          Send(entry, w.s.pos, pre, x);
      }
    }

    /** One event of the stream. The watcher is stopped unless reading goes on. */
    method WatchEvent(w: Watcher, initialEvents: bool, ghost x: Watching)
      returns (rv: Option<nat>, ending: Ending, initial: bool, o: Outcome, ghost pre: State)
      requires Traced() && Tracks(x, w.s) && !x.listing && x.initial == initialEvents
      modifies this`inputs, this`done, this`m, this`watchList, this`bookmarks, this`ctxDone, this`killed, this`shown, this`dataCh, w`s, w`stopped
      ensures Traced() && |inputs| <= |old(inputs)|
      ensures ending.Continue? ==> |inputs| < |old(inputs)| && !ctxDone && !killed && w.stopped == old(w.stopped)
      ensures !ending.Continue? ==> w.stopped && rv.None?
      ensures ctxDone || killed ==> Halted() && ending.EOF?
      ensures !ctxDone && !killed ==> pre.gap == old(m).gap && pre.rv == old(m).rv
      ensures !ctxDone && !killed && ending.EOF? ==> Matches(pre) && m == StreamEnded(pre, x.(s := w.s))
      ensures ending.Stale? ==> Matches(pre) && m == Rejected(StreamEnded(pre, x.(s := w.s)), ending.outcome)
      ensures ending.Continue? && rv.Some? ==> Matches(pre) && m == Record(pre, x.(s := w.s, initial := initial), rv.value, o)
      ensures ending.Continue? && rv.None? ==>
                && m.phase.Streaming? && Matches(m) && m.gap == pre.gap && m.rv == pre.rv
                && initial == initialEvents && m.phase.w == x.(s := w.s, cut := m.phase.w.cut)
    {
      rv, ending, initial := None, EOF, initialEvents;
      var e;
      e, o, pre := Get(w, x);
      if e.None? {
        w.Stop();
      } else {
        rv, ending, initial := Handle(w, e.value, initialEvents, o, pre, x.(s := w.s));
      }
    }

    /** One input while the listed snapshots are delivered: a delivery, the store's reply once all are, or neither. */
    method PollList(objects: Objects, at: nat, remaining: set<Uid>, ghost x: Watching)
      returns (left: set<Uid>, o: Option<Outcome>, ghost pre: State)
      requires Traced() && Tracks(x, x.s) && x.listing && inputs != [] && x.s.pos == at && x.s.pending == remaining
      requires objects == StateAt(c.h, at)
      modifies this`inputs, this`done, this`m, this`watchList, this`bookmarks, this`ctxDone, this`killed, this`shown, this`dataCh
      ensures Traced() && inputs == old(inputs)[1..] && pre == old(m)
      ensures ctxDone || killed ==> Halted() && o.None?
      ensures !ctxDone && !killed && o.None? ==>
                && m.phase.Streaming? && Matches(m) && m.gap == pre.gap && m.rv == pre.rv
                && m.phase.w == x.(s := x.s.(pending := left), cut := m.phase.w.cut)
      ensures o.Some? ==> Matches(pre) && left == remaining == {} && m == Record(pre, x.(listing := false), at, o.value)
    {
      pre, left, o := m, remaining, None;
      var i := Take();
      if Ambient(watchList, i) {
        AmbientStep(c, pre, i);
        TakeAmbient(i, pre);
      } else {
        left, o := HandleListed(objects, at, remaining, i, pre, x);
      }
    }

    /** That input, when it is not an ambient one. */
    method HandleListed(objects: Objects, at: nat, remaining: set<Uid>, i: Input, ghost pre: State, ghost x: Watching)
      returns (left: set<Uid>, o: Option<Outcome>)
      requires Matches(pre) && pre.phase == Streaming(x) && x.listing && x.s.pos == at && x.s.pending == remaining
      requires objects == StateAt(c.h, at) && !Ambient(watchList, i) && m == Step(c, pre, i)
      modifies this`shown, this`dataCh
      ensures o.None? ==>
                && m.phase.Streaming? && Matches(m) && m.gap == pre.gap && m.rv == pre.rv
                && m.phase.w == x.(s := x.s.(pending := left), cut := m.phase.w.cut)
      ensures o.Some? ==> Matches(pre) && left == remaining == {} && m == Record(pre, x.(listing := false), at, o.value)
    {
      left, o := remaining, None;
      ListStep(c, pre, i);
      if i.SendObject? && i.uid in remaining && i.uid in objects && objects[i.uid].kind != Unsupported {
        left := remaining - {i.uid};
        Send(NewEntry(Pointer(objects[i.uid]), STWatchList, CTSnapshot), at, pre, x.(s := x.s.(pending := left)));
      } else if i.Persist? && remaining == {} {
        o := Some(i.outcome);
      }
    }

    /** Put every listed object on the output as a snapshot; afterwards the list's version may be persisted. */
    method DeliverList(objects: Objects, at: nat, ghost x: Watching) returns (o: Outcome, ghost pre: State, ghost y: Watching)
      requires Traced() && Tracks(x, x.s) && x.listing && x.s.pos == at && x.s.pending == objects.Keys
      requires objects == StateAt(c.h, at)
      modifies this`inputs, this`done, this`m, this`watchList, this`bookmarks, this`ctxDone, this`killed, this`shown, this`dataCh
      ensures Traced() && |inputs| <= |old(inputs)|
      ensures ctxDone || killed ==> Halted()
      ensures !ctxDone && !killed ==>
                && Matches(pre) && pre.gap == old(m).gap && pre.rv == old(m).rv
                && y == x.(listing := false, s := x.s.(pending := {}), cut := y.cut) && m == Record(pre, y, at, o)
    {
      pre, o, y := m, Done, x;
      var remaining := objects.Keys;
      while inputs != []
        invariant Traced() && !ctxDone && !killed && Matches(m) && |inputs| <= |old(inputs)|
        invariant m.phase.Streaming? && y == m.phase.w && y == x.(s := x.s.(pending := remaining), cut := y.cut)
        invariant m.gap == old(m).gap && m.rv == old(m).rv
        decreases |inputs|
      {
        var reply;
        remaining, reply, pre := PollList(objects, at, remaining, y);
        if ctxDone || killed { return; }
        if reply.Some? { return reply.value, pre, y.(listing := false); }
        y := m.phase.w;
      }
      killed := true;
    }

    /** storeBookmark, unless it is the version stored last; the machine has recorded it already. */
    method StoreBookmark(rv: nat, stored: Option<nat>, o: Outcome, ghost pre: State, ghost x: Watching) returns (stored': Option<nat>)
      requires Matches(pre) && m == Record(pre, x, rv, o) && x.saved == stored
      modifies this`bookmarks
      ensures Matches(m) && m.gap == pre.gap && m.rv == pre.rv
      ensures m.phase == Streaming(x.(seen := Some(rv), saved := stored'))
    {
      stored' := stored;
      if stored != Some(rv) {
        if !o.Failed? { bookmarks := Some(rv); }
        if o.Done? { stored' := Some(rv); }
      }
    }

    /** watchEvents: reads the watcher until it ends, and returns the last version received on it. */
    method WatchEvents(w: Watcher, ghost x: Watching) returns (resourceVersion: Option<nat>, ending: Ending)
      requires Traced() && Matches(m) && m.phase == Streaming(x) && JustOpened(c, w, x) && !ctxDone && !killed
      modifies this`inputs, this`done, this`m, this`watchList, this`bookmarks, this`ctxDone, this`killed, this`shown, this`dataCh, w
      ensures Traced() && |inputs| <= |old(inputs)|
      ensures w.stopped && !ending.Continue?
      ensures ctxDone || killed ==> Halted() && ending.EOF?
      ensures !ctxDone && !killed ==> Returned(old(m), resourceVersion, ending)
    {
      resourceVersion, ending := None, EOF;
      var storedResourceVersion: Option<nat>, initialEvents := None, false;
      ghost var y := x;
      if !w.kind.Plain? {
        var mode := w.mode;
        w.mode := NotSet;
        match mode {
          case InitialEventsRecovery => initialEvents := true;
          case ListRecoveryOf(objects, at) =>
            ghost var before;
            var o;
            o, before, y := DeliverList(objects, at, x);
            if ctxDone || killed {
              w.Stop();
              return;
            }
            resourceVersion := Some(at);
            storedResourceVersion := StoreBookmark(at, None, o, before, y);
            y := y.(seen := resourceVersion, saved := storedResourceVersion);
          case NotSet => assert false;
        }
      }
      ending := Continue;
      while ending.Continue?
        invariant Traced() && |inputs| <= |old(inputs)|
        invariant ending.Continue? ==>
                    && Tracks(y, w.s) && !y.listing && y.initial == initialEvents && y.seen == resourceVersion
                    && y.saved == storedResourceVersion && m.gap == old(m).gap && m.rv == old(m).rv
        invariant !ending.Continue? ==>
                    && w.stopped && (ctxDone || killed ==> Halted() && ending.EOF?)
                    && (!ctxDone && !killed ==> Returned(old(m), resourceVersion, ending))
        decreases ending.Continue?, |inputs|
      {
        ghost var pre;
        var rv, o;
        rv, ending, initialEvents, o, pre := WatchEvent(w, initialEvents, y);
        y := y.(s := w.s, initial := initialEvents);
        if rv.Some? {
          resourceVersion := rv;
          storedResourceVersion := StoreBookmark(rv.value, storedResourceVersion, o, pre, y);
        }
        if ending.Continue? { y := m.phase.w; }
      }
    }

    /** The machine once watchEvents has returned: what it will make of the handler's variables is settled. */
    ghost predicate Returned(before: State, rv: Option<nat>, ending: Ending)
      reads this
    {
      && m.phase.Connecting? && m.out == dataCh && m.watchList == watchList && m.audit.hw == shown
      && match ending
         case Stale(o) =>
           && m.gap && m.rv.None?
           && m.store == Cleared(bookmarks, if rv.Some? then rv else before.rv, o)
         case _ =>
           && m.store == bookmarks
           && m.rv == (if rv.Some? then rv else before.rv) && m.gap == (if rv.Some? then false else before.gap)
    }

    // ---- opening watchers -------------------------------------------------------------------------------------

    /** One input while an answer is awaited. */
    method PollAnswer(p: Phase, gap: bool) returns (i: Option<Input>, ghost pre: State)
      requires Traced() && Matches(m) && m.phase == p && m.gap == gap && Waiting(p) && !ctxDone && !killed && inputs != []
      modifies this`inputs, this`done, this`m, this`watchList, this`bookmarks, this`ctxDone, this`killed
      ensures Traced() && inputs == old(inputs)[1..] && pre == old(m)
      ensures ctxDone || killed ==> Halted() && i.None?
      ensures !ctxDone && !killed && i.None? ==> Matches(m) && m.phase == p && m.gap == gap && m.rv == pre.rv
      ensures i.Some? ==> Matches(pre) && !FallsBack(watchList, i.value) && Answers(c, watchList, shown, p, gap, i.value) && m == Step(c, pre, i.value)
    {
      pre, i := m, None;
      var next := Take();
      if Ambient(watchList, next) {
        AmbientStep(c, pre, next);
        TakeAmbient(next, pre);
      } else if Answers(c, watchList, shown, p, gap, next) {
        i := Some(next);
      } else {
        NoAnswer(c, pre, next);
      }
    }

    /** The answer to the outstanding request, or None if the context ends or the process dies first. */
    method Await(p: Phase, gap: bool) returns (i: Option<Input>, ghost pre: State)
      requires Traced() && Matches(m) && m.phase == p && m.gap == gap && Waiting(p) && !ctxDone && !killed
      modifies this`inputs, this`done, this`m, this`watchList, this`bookmarks, this`ctxDone, this`killed
      ensures Traced() && |inputs| <= |old(inputs)|
      ensures ctxDone || killed ==> Halted() && i.None?
      ensures !ctxDone && !killed ==>
                && i.Some? && |inputs| < |old(inputs)| && Matches(pre) && pre.phase == p && pre.gap == gap
                && pre.rv == old(m).rv && !FallsBack(watchList, i.value) && Answers(c, watchList, shown, p, gap, i.value) && m == Step(c, pre, i.value)
    {
      pre, i := m, None;
      while inputs != []
        invariant Traced() && Matches(m) && m.phase == p && m.gap == gap && !ctxDone && !killed && i.None?
        invariant |inputs| <= |old(inputs)| && m.rv == old(m).rv
        decreases |inputs|
      {
        i, pre := PollAnswer(p, gap);
        if i.Some? || ctxDone || killed { return; }
      }
      killed := true;
    }

    /** w is a new watcher, ready to be handed to watchEvents. */
    ghost predicate Ready(w: Watcher, x: Watching)
      reads this, w
    {
      && Matches(m) && m.phase == Streaming(x) && JustOpened(c, w, x) && !w.stopped && w in watchers
      && (m.gap <==> !w.kind.Plain?) && !ctxDone && !killed
    }

    ghost predicate AllStopped(but: Watcher?)
      reads this, watchers
    {
      forall w :: w in watchers && w != but ==> w.stopped
    }

    method OpenPlainWatcher(l: nat, rv: Option<nat>, ghost pre: State) returns (w: Watcher, ghost x: Watching)
      requires Matches(pre) && m == OpenPlain(c, pre, l) && pre.rv == rv && !ctxDone && !killed
      requires AllStopped(null)
      modifies this`shown, this`watchers
      ensures fresh(w) && Ready(w, x) && watchers == old(watchers) + {w} && m.rv == rv && w.kind.Plain?
      ensures AllStopped(w)
    {
      var shared := SharedOptions(c.bookmarking, watchList);
      var options := if c.bookmarking then WithResourceVersion(shared, rv) else shared;
      var s := OpenStream(c.h, options, l);
      w := new Watcher(Plain, NotSet, s);
      if options.resourceVersion.None? { shown := Max(shown, s.pos); }
      watchers := watchers + {w};
      x := m.phase.w;
    }

    method OpenInitialEventsWatcher(l: nat, ghost pre: State) returns (w: Watcher, ghost x: Watching)
      requires Matches(pre) && m == OpenInitialEvents(c, pre, l) && !ctxDone && !killed
      requires AllStopped(null)
      modifies this`shown, this`watchers
      ensures fresh(w) && Ready(w, x) && watchers == old(watchers) + {w} && m.rv == pre.rv && w.kind.InitialEvents?
      ensures AllStopped(w)
    {
      var s := OpenStream(c.h, SharedOptions(c.bookmarking, watchList), l);
      w := new Watcher(InitialEvents, InitialEventsRecovery, s);
      shown := Max(shown, s.pos);
      watchers := watchers + {w};
      x := m.phase.w;
    }

    method OpenListWatcher(objects: Objects, at: nat, ghost pre: State) returns (w: Watcher, ghost x: Watching)
      requires Matches(pre) && m == OpenListed(c, pre, at) && objects == StateAt(c.h, at) && !ctxDone && !killed
      requires AllStopped(null)
      modifies this`shown, this`watchers
      ensures fresh(w) && Ready(w, x) && watchers == old(watchers) + {w} && m.rv == pre.rv && w.kind.ListRecovery?
      ensures AllStopped(w)
    {
      var s := OpenStream(c.h, WithResourceVersion(SharedOptions(c.bookmarking, watchList), Some(at)), at);
      assert s == Stream({}, at, false);
      w := new Watcher(ListRecovery, ListRecoveryOf(objects, at), s);
      shown := Max(shown, s.pos);
      watchers := watchers + {w};
      x := m.phase.w;
    }

    /** What a request for a watcher came to. After an error the machine has already decided how to go on. */
    ghost predicate Answered(r: Reply, rv: Option<nat>, x: Watching, pre: State)
      reads this, if r.Opened? then {r.w} else {}
    {
      match r
      case Opened(w) => Ready(w, x) && m.rv == rv
      case Errored(e, stop, o) =>
        && Matches(pre) && pre.rv == rv && m == RetryError(pre, e, stop, o) && !ctxDone && !killed
      case Interrupted => Halted()
    }

    /** getRecoveryWatcher: initial events if the spawner still asks for them, otherwise a list and a watch from it. */
    method GetRecoveryWatcher() returns (r: Reply, ghost x: Watching, ghost pre: State)
      requires Traced() && Matches(m) && m.phase.Connecting? && m.gap && !ctxDone && !killed
      requires AllStopped(null)
      modifies this`inputs, this`done, this`m, this`watchList, this`bookmarks, this`ctxDone, this`killed, this`shown, this`watchers
      ensures Traced() && Answered(r, old(m).rv, x, pre) && |inputs| <= |old(inputs)| && (r.Interrupted? || |inputs| < |old(inputs)|)
      ensures r.Errored? ==> pre.gap
      ensures r.Opened? ==> fresh(r.w) && !r.w.kind.Plain? && watchers == old(watchers) + {r.w}
      ensures !r.Opened? ==> watchers == old(watchers)
      ensures AllStopped(if r.Opened? then r.w else null)
    {
      var i;
      x := NOT_WATCHING;
      i, pre := Await(Connecting, true);
      if i.None? { return Interrupted, x, pre; }
      ConnectingAnswer(c, pre, i.value);
      match i.value {
        case Open(l) =>
          var w;
          w, x := OpenInitialEventsWatcher(l, pre);
          r := Opened(w);
        case Refuse(e, o) => r := Errored(e, false, o);
        case ListFailed(cause) => r := Errored(ListError(cause), ListStops(cause), Done);
        case Listed(l) =>
          shown := l;
          r, x, pre := WatchFromList(StateAt(c.h, l), l);
      }
    }

    /** The rest of getListRecoveryWatcher: a watch that resumes where the list ends. */
    method WatchFromList(objects: Objects, at: nat) returns (r: Reply, ghost x: Watching, ghost pre: State)
      requires Traced() && Matches(m) && m.phase == Opening(at) && m.gap && !ctxDone && !killed && objects == StateAt(c.h, at)
      requires AllStopped(null)
      modifies this`inputs, this`done, this`m, this`watchList, this`bookmarks, this`ctxDone, this`killed, this`shown, this`watchers
      ensures Traced() && Answered(r, old(m).rv, x, pre) && |inputs| <= |old(inputs)|
      ensures r.Errored? ==> pre.gap
      ensures r.Opened? ==> fresh(r.w) && !r.w.kind.Plain? && watchers == old(watchers) + {r.w}
      ensures !r.Opened? ==> watchers == old(watchers)
      ensures AllStopped(if r.Opened? then r.w else null)
    {
      var i;
      x := NOT_WATCHING;
      i, pre := Await(Opening(at), true);
      if i.None? { return Interrupted, x, pre; }
      OpeningAnswer(c, pre, at, i.value);
      if i.value.Refuse? { return Errored(i.value.error, false, i.value.outcome), x, pre; }
      var w;
      w, x := OpenListWatcher(objects, at, pre);
      r := Opened(w);
    }

    /** getWatcher for a request that is not a recovery. */
    method GetPlainWatcher(rv: Option<nat>) returns (r: Reply, ghost x: Watching, ghost pre: State)
      requires Traced() && Matches(m) && m.phase.Connecting? && !m.gap && m.rv == rv && !ctxDone && !killed
      requires AllStopped(null)
      modifies this`inputs, this`done, this`m, this`watchList, this`bookmarks, this`ctxDone, this`killed, this`shown, this`watchers
      ensures Traced() && Answered(r, rv, x, pre) && |inputs| <= |old(inputs)| && (r.Interrupted? || |inputs| < |old(inputs)|)
      ensures r.Errored? ==> !pre.gap
      ensures r.Opened? ==> fresh(r.w) && r.w.kind.Plain? && watchers == old(watchers) + {r.w}
      ensures !r.Opened? ==> watchers == old(watchers)
      ensures AllStopped(if r.Opened? then r.w else null)
    {
      var i;
      x := NOT_WATCHING;
      i, pre := Await(Connecting, false);
      if i.None? { return Interrupted, x, pre; }
      ConnectingAnswer(c, pre, i.value);
      if i.value.Refuse? { return Errored(i.value.error, false, i.value.outcome), x, pre; }
      var w;
      w, x := OpenPlainWatcher(i.value.version, rv, pre);
      r := Opened(w);
    }

    // ---- handleWatcher ----------------------------------------------------------------------------------------

    /** clearRejectedBookmark: delete the entry if it still is rv; a failure is only logged. */
    method ClearRejected(rv: Option<nat>, o: Outcome)
      modifies this`bookmarks
      ensures bookmarks == Cleared(old(bookmarks), rv, o)
    {
      if rv.Some? && bookmarks == rv && !o.Failed? {
        bookmarks := None;
      }
    }

    /** The retry loop: asks until a watcher opens or the error is permanent. */
    method Reconnect(gap0: bool, rv0: Option<nat>)
      returns (w: Watcher?, gap: bool, resourceVersion: Option<nat>, failed: bool, ghost x: Watching)
      requires Traced() && Matches(m) && m.phase.Connecting? && m.gap == gap0 && m.rv == rv0 && !ctxDone && !killed && AllStopped(null)
      modifies this`inputs, this`done, this`m, this`watchList, this`bookmarks, this`ctxDone, this`killed, this`shown, this`watchers
      ensures Traced() && |inputs| <= |old(inputs)|
      ensures w != null ==> fresh(w) && |inputs| < |old(inputs)| && Ready(w, x) && m.gap == gap && m.rv == resourceVersion
      ensures AllStopped(w) && (w != null ==> !failed)
      ensures w == null && !failed ==> Halted()
      ensures failed ==> Matches(m) && m.phase.Ended? && !ctxDone && !killed
    {
      w, gap, resourceVersion, failed := null, gap0, rv0, false;
      while true
        invariant Traced() && Matches(m) && m.phase.Connecting? && m.gap == gap && m.rv == resourceVersion
        invariant !ctxDone && !killed && |inputs| <= |old(inputs)| && w == null && !failed && AllStopped(null)
        decreases |inputs|
      {
        var r;
        ghost var pre;
        if gap {
          r, x, pre := GetRecoveryWatcher();
        } else {
          r, x, pre := GetPlainWatcher(resourceVersion);
        }
        match r {
          case Interrupted => return;
          case Opened(next) =>
            w := next;
            return;
          case Errored(e, stop, o) =>
            gap, resourceVersion, failed := AfterError(e, stop, o, gap, resourceVersion, pre);
            if failed { return; }
        }
      }
    }

    /** The retry closure once its request has failed: the handler's variables for the next attempt, if there is one. */
    method AfterError(e: ApiError, stop: bool, o: Outcome, gap0: bool, rv0: Option<nat>, ghost pre: State)
      returns (gap: bool, resourceVersion: Option<nat>, failed: bool)
      requires Matches(pre) && pre.rv == rv0 && pre.gap == gap0
      requires m == RetryError(pre, e, stop, o)
      modifies this`bookmarks
      ensures Matches(m)
      ensures if failed then m.phase.Ended? else m.phase.Connecting? && m.gap == gap && m.rv == resourceVersion
      ensures failed <==> stop || e.Forbidden? || e.Unauthorized? || (rv0 == None && (e.BadRequest? || e.Invalid? || e.WatchListGate?))
      ensures !failed ==>
                if rv0.Some? && e in {Expired, Gone, BadRequest, Invalid, WatchListGate} then gap && resourceVersion == None
                else gap == gap0 && resourceVersion == rv0 && bookmarks == old(bookmarks)
    {
      gap, resourceVersion, failed := gap0, rv0, stop;
      if e.Forbidden? || e.Unauthorized? {
        failed := true;
      } else if rv0.Some? && RejectedResourceVersion(e) {
        ClearRejected(resourceVersion, o);
        resourceVersion := None;
        gap := true;
      } else if rv0.None? && InvalidWatchRequest(e) {
        failed := true;
      }
    }

    /** The first half of handleWatcher's loop: read the watcher to its end, and decide what to ask for next. */
    method ReadWatcher(w: Watcher, gap0: bool, rv0: Option<nat>, ghost x: Watching) returns (gap: bool, resourceVersion: Option<nat>)
      requires Traced() && Ready(w, x) && m.rv == rv0 && m.gap == gap0 && AllStopped(w)
      modifies this`inputs, this`done, this`m, this`watchList, this`bookmarks, this`ctxDone, this`killed, this`shown, this`dataCh, w
      ensures Traced() && |inputs| <= |old(inputs)| && AllStopped(null)
      ensures ctxDone || killed ==> Halted()
      ensures !ctxDone && !killed ==> Matches(m) && m.phase.Connecting? && m.rv == resourceVersion && m.gap == gap
    {
      gap, resourceVersion := gap0, rv0;
      var rv, ending := WatchEvents(w, x);
      if ctxDone || killed { return; }
      if rv.Some? {
        resourceVersion := rv;
        gap := false;
      }
      if ending.Stale? {
        ClearRejected(resourceVersion, ending.outcome);
        resourceVersion := None;
        gap := true;
      }
    }

    /** handleWatcher: reads the watcher, and whenever it ends opens the next, until the context is done, the process
        dies or a request fails for good. The handler holds at most one unstopped watcher, and leaves none. */
    method HandleWatcher(first: Watcher?, rv0: Option<nat>, ghost x0: Watching) returns (failed: bool)
      requires Traced() && !ctxDone && !killed && m.rv == rv0
      requires first != null ==> Ready(first, x0)
      requires first == null ==> Matches(m) && m.phase.Connecting? && m.gap
      requires AllStopped(first)
      modifies this`inputs, this`done, this`m, this`watchList, this`bookmarks, this`ctxDone, this`killed, this`shown, this`dataCh, this`watchers
      modifies if first == null then {} else {first}
      ensures Traced() && |inputs| <= |old(inputs)|
      ensures AllStopped(null)
      ensures Matches(m)
      ensures failed ==> m.phase.Ended? && !ctxDone && !killed
      ensures !failed ==> Halted()
    {
      failed := false;
      var w, resourceVersion := first, rv0;
      var gap := w == null || !w.kind.Plain?;
      ghost var x := x0;
      while true
        invariant Traced() && |inputs| <= |old(inputs)| && !ctxDone && !killed && !failed
        invariant m.rv == resourceVersion && m.gap == gap
        invariant w != null ==> Ready(w, x) && (w == first || fresh(w))
        invariant w == null ==> Matches(m) && m.phase.Connecting?
        invariant AllStopped(w)
        decreases |inputs|, w != null
      {
        if w != null {
          gap, resourceVersion := ReadWatcher(w, gap, resourceVersion, x);
          if ctxDone || killed { return; }
        }
        w, gap, resourceVersion, failed, x := Reconnect(gap, resourceVersion);
        if w == null { return; }
      }
    }

    // ---- startup ----------------------------------------------------------------------------------------------

    /** Whether the loaded bookmark can be resumed from, or, with the store's reply to clearing it, why not: bookmarkAhead
        finds it newer than the server's version. A check that cannot be made does not count against it. */
    method CheckBookmark(bookmark: nat) returns (cause: Option<Outcome>)
      requires Traced() && Matches(m) && m.rv == Some(bookmark) && !m.gap && m.phase.Checking? && !ctxDone && !killed
      modifies this`inputs, this`done, this`m, this`watchList, this`bookmarks, this`ctxDone, this`killed
      ensures Traced() && |inputs| <= |old(inputs)|
      ensures ctxDone || killed ==> Halted()
      ensures !ctxDone && !killed ==> Decided(Some(bookmark), cause)
    {
      cause := None;
      var i;
      ghost var pre;
      i, pre := Await(Checking, false);
      if i.None? { return; }
      StartupAnswer(c, pre, i.value);
      var current := i.value.current;
      if current.Some? && bookmark > current.value { cause := Some(i.value.outcome); }
    }

    /** Startup either still means to resume from rv, or to recover, when the machine has already cleared it. */
    ghost predicate Decided(rv: Option<nat>, cause: Option<Outcome>)
      reads this
    {
      && !m.gap && m.out == dataCh && m.watchList == watchList && m.audit.hw == shown
      && if cause.None? then m.phase.Resuming? && m.rv == rv && m.store == bookmarks
         else m.phase.Recovering? && m.rv == None && m.store == Cleared(bookmarks, rv, cause.value)
    }

    /** The startup request for a watcher: it opens, or is rejected for its version, or fails. */
    method ResumeBookmark(rv: Option<nat>) returns (w: Watcher?, cause: Option<Outcome>, failed: bool, ghost x: Watching)
      requires Traced() && Decided(rv, None) && !ctxDone && !killed && AllStopped(null)
      modifies this`inputs, this`done, this`m, this`watchList, this`bookmarks, this`ctxDone, this`killed, this`shown, this`watchers
      ensures Traced() && |inputs| <= |old(inputs)| && AllStopped(w)
      ensures ctxDone || killed ==> w == null && Halted() && !failed
      ensures failed ==> w == null && Matches(m) && m.phase.Ended?
      ensures w != null ==> Ready(w, x) && fresh(w) && m.rv == rv && cause.None?
      ensures w == null && !failed && !ctxDone && !killed ==> cause.Some? && Decided(rv, cause)
    {
      w, cause, failed, x := null, None, false, NOT_WATCHING;
      var i;
      ghost var pre;
      i, pre := Await(Resuming, false);
      if i.None? { return; }
      StartupAnswer(c, pre, i.value);
      if i.value.Open? {
        w, x := OpenPlainWatcher(i.value.version, rv, pre);
      } else if rv.Some? && RejectedResourceVersion(i.value.error) {
        cause := Some(i.value.outcome);
      } else {
        failed := true;
      }
    }

    /** watch, after the bookmark was loaded: resume from it unless it is found ahead or is rejected, and recover then. */
    method Watch(loaded: Option<nat>) returns (failed: bool)
      requires Traced() && Matches(m) && m.rv == loaded && !m.gap && !ctxDone && !killed && AllStopped(null)
      requires if loaded.Some? then m.phase.Checking? else m.phase.Resuming?
      modifies this`inputs, this`done, this`m, this`watchList, this`bookmarks, this`ctxDone, this`killed, this`shown, this`dataCh, this`watchers
      ensures Traced() && |inputs| <= |old(inputs)|
      ensures AllStopped(null)
      ensures Matches(m)
      ensures failed ==> m.phase.Ended? && !ctxDone && !killed
      ensures !failed ==> Halted()
    {
      failed := false;
      var resourceVersion, cause := loaded, None;
      if resourceVersion.Some? {
        cause := CheckBookmark(resourceVersion.value);
        if ctxDone || killed { return; }
      }
      var w: Watcher? := null;
      ghost var x := NOT_WATCHING;
      if cause.None? {
        w, cause, failed, x := ResumeBookmark(resourceVersion);
        if failed || ctxDone || killed { return; }
      }
      if cause.Some? {
        ClearRejected(resourceVersion, cause.value);
        resourceVersion := None;
        w, failed, x := RecoverStartup();
        if failed || ctxDone || killed { return; }
      }
      failed := HandleWatcher(w, resourceVersion, x);
    }

    /** The rest of recoverStartup, its bookmark cleared: a WatchList watch, or none when it is unavailable and the
        handler has to list. */
    method RecoverStartup() returns (w: Watcher?, failed: bool, ghost x: Watching)
      requires Traced() && Matches(m) && m.phase.Recovering? && m.rv == None && !m.gap && !ctxDone && !killed && AllStopped(null)
      modifies this`inputs, this`done, this`m, this`watchList, this`bookmarks, this`ctxDone, this`killed, this`shown, this`watchers
      ensures Traced() && |inputs| <= |old(inputs)| && AllStopped(w)
      ensures failed ==> w == null && Matches(m) && m.phase.Ended? && !ctxDone && !killed
      ensures ctxDone || killed ==> w == null && Halted()
      ensures !failed && !ctxDone && !killed ==>
                m.rv == None && if w == null then Matches(m) && m.phase.Connecting? && m.gap else Ready(w, x) && fresh(w)
    {
      w, failed := null, false;
      x := NOT_WATCHING;
      var i;
      ghost var pre;
      i, pre := Await(Recovering, false);
      if i.None? { return; }
      StartupAnswer(c, pre, i.value);
      match i.value {
        case Open(l) => w, x := OpenInitialEventsWatcher(l, pre);
        case NoWatchList =>
        case _ => failed := true;
      }
    }

    /** Run: load the bookmark and watch, until the Reader stops for whatever reason. */
    method RunOnce(sameReader: bool, loaded: bool, ghost pre: State)
      requires Traced() && Matches(pre) && m == Load(c, pre, sameReader, loaded) && !ctxDone && !killed && AllStopped(null)
      modifies this
      ensures Traced() && Matches(m) && AllStopped(null) && |inputs| <= |old(inputs)| && !ctxDone && !killed
      ensures inputs != [] ==> Idle(m.phase)
    {
      if !sameReader { watchList := c.bookmarking; }
      var rv := if c.bookmarking && loaded then bookmarks else None;
      var failed := Watch(rv);
      ctxDone, killed := false, false;
    }

    /** Run after run of the Reader, in one process or in several, until the inputs end. */
    method Live()
      requires Traced() && Matches(m) && m == Init(c) && !ctxDone && !killed && watchers == {}
      modifies this
      ensures inputs == [] && done == all && m == Run(c, Init(c), all)
      ensures dataCh == m.out && bookmarks == m.store
      ensures AllStopped(null)
    {
      while inputs != []
        invariant Traced() && Matches(m) && !ctxDone && !killed && AllStopped(null)
        invariant inputs != [] ==> Idle(m.phase)
        decreases |inputs|
      {
        ghost var pre := m;
        var i := Take();
        IdleStep(c, pre, i);
        if FallsBack(watchList, i) {
          watchList := false;
        } else {
          match i {
            case Foreign(v) => bookmarks := v;
            case Start(sameReader, loaded) => RunOnce(sameReader, loaded, pre);
            case _ =>
          }
        }
      }
      assert done + inputs == done;
    }
  }

  lemma IdleStep(c: World, st: State, i: Input)
    requires Idle(st.phase)
    ensures Step(c, st, i) ==
      if FallsBack(st.watchList, i) then st.(watchList := false) else
      match i
      case Foreign(v) => st.(store := v)
      case Crash => st.(phase := Down)
      case Cancel => if st.phase.Down? then st else st.(phase := Ended)
      case Start(sameReader, loaded) => Load(c, st, sameReader, loaded)
      case _ => st
  {
  }

  /** The nested loops refine the state machine: whatever the environment does, they leave the output and the store the
      machine leaves, with every watcher they opened stopped. So a fair environment finds a safe bookmark. */
  method Lifetime(c: World, inputs: seq<Input>) returns (out: seq<Entry>, store: Option<nat>)
    ensures out == Run(c, Init(c), inputs).out && store == Run(c, Init(c), inputs).store
    ensures FairRun(c, inputs) && store.Some? ==>
              forall u :: u in StateAt(c.h, store.value) ==>
                Fresh(c.h, View(out), store.value, Run(c, Init(c), inputs).audit.hw, u)
  {
    var r := new Reader(c, inputs);
    r.Live();
    out, store := r.dataCh, r.bookmarks;
    if FairRun(c, inputs) && store.Some? {
      RunIsSafe(c, inputs);
    }
  }

  datatype Reply = Opened(w: Watcher) | Errored(error: ApiError, stop: bool, outcome: Outcome) | Interrupted
}
