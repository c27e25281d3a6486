/** Ghosts, exactly: a noted ghost is an object that is gone, and it is noted because a stream of all objects opened
    without it while the consumer held it. */
module ProtocolGhosts {
  import opened Wrappers
  import opened Data
  import opened History
  import opened Requests
  import opened Protocol
  import opened ProtocolControl
  import opened ProtocolCoverage

  /** From its note on, up to x, a ghost is gone: had it come back by x, it would have been delivered. */
  ghost predicate Gone(h: seq<Change>, ghosts: map<Uid, nat>, x: nat, pending: set<Uid>) {
    forall u :: u in ghosts && u !in pending && ghosts[u] <= x ==> u !in StateAt(h, x)
  }

  ghost predicate GoneUpTo(h: seq<Change>, ghosts: map<Uid, nat>, x: Option<nat>) {
    x.Some? ==> Gone(h, ghosts, x.value, {})
  }

  ghost predicate StreamGhostsOk(c: World, st: State, w: Watching) {
    GoneUpTo(c.h, st.audit.ghosts, w.seen) && Gone(c.h, st.audit.ghosts, w.s.pos, w.s.pending)
  }

  ghost predicate GhostsOk(c: World, st: State) {
    && GoneUpTo(c.h, st.audit.ghosts, st.store)
    && GoneUpTo(c.h, st.audit.ghosts, st.rv)
    && (st.phase.Streaming? ==> StreamGhostsOk(c, st, st.phase.w))
  }

  /** Fewer ghosts, or the same ones noted later at versions at which they are gone. */
  ghost predicate Renoted(h: seq<Change>, ghosts: map<Uid, nat>, ghosts': map<Uid, nat>, l: nat) {
    forall u :: u in ghosts' ==> (u in ghosts && ghosts'[u] == ghosts[u]) || (ghosts'[u] == l && u !in StateAt(h, l))
  }

  lemma GoneLess(h: seq<Change>, ghosts: map<Uid, nat>, ghosts': map<Uid, nat>, l: nat, x: Option<nat>)
    requires GoneUpTo(h, ghosts, x) && Renoted(h, ghosts, ghosts', l) && (x.Some? ==> x.value <= l)
    ensures GoneUpTo(h, ghosts', x)
  {
    if x.Some? {
      forall u | u in ghosts' && ghosts'[u] <= x.value ensures u !in StateAt(h, x.value) {
        if !(u in ghosts && ghosts'[u] == ghosts[u]) { assert x.value == l; }
      }
    }
  }

  /** The stream takes in the change after pos; the object it touches is delivered and no ghost any more. */
  lemma GoneNext(h: seq<Change>, ghosts: map<Uid, nat>, ghosts': map<Uid, nat>, pos: nat)
    requires Gone(h, ghosts, pos, {}) && pos < |h|
    requires forall u :: u in ghosts ==> u !in StateAt(h, ghosts[u])
    requires forall u :: u in ghosts' ==> u in ghosts && ghosts'[u] == ghosts[u] && !Touches(h[pos], u)
    ensures Gone(h, ghosts', pos + 1, {})
  {
    forall u | u in ghosts' && ghosts'[u] <= pos + 1 ensures u !in StateAt(h, pos + 1) {
      StateStep(h, pos, u);
    }
  }

  // ---- every step ---------------------------------------------------------------------------------------------

  lemma FewerGhosts(c: World, st: State, st': State)
    requires GhostsOk(c, st) && st'.store == st.store && st'.rv == st.rv
    requires forall u :: u in st'.audit.ghosts ==> u in st.audit.ghosts && st'.audit.ghosts[u] == st.audit.ghosts[u]
    ensures GoneUpTo(c.h, st'.audit.ghosts, st.store) && GoneUpTo(c.h, st'.audit.ghosts, st.rv)
    ensures st.phase.Streaming? ==> GoneUpTo(c.h, st'.audit.ghosts, st.phase.w.seen)
  {
  }

  /** st' is st with the outstanding object u delivered. */
  ghost predicate SentObject(st: State, w: Watching, st': State, u: Uid) {
    && st'.store == st.store && st'.rv == st.rv && st'.audit.ghosts == st.audit.ghosts - {u}
    && st'.phase.Streaming? && st'.phase.w.(cut := w.cut) == w.(s := w.s.(pending := w.s.pending - {u}))
  }

  lemma ObjectForms(c: World, st: State, w: Watching, u: Uid)
    requires Safe(c, st) && st.phase == Streaming(w)
    ensures var st' := StepStreaming(c, st, w, SendObject(u)); st' == st || SentObject(st, w, st', u)
  {
    StaySafe(c, st, w);
    StateObjects(c.h, w.s.pos);
  }

  lemma SentGhosts(c: World, st: State, w: Watching, st': State, u: Uid)
    requires GhostsOk(c, st) && st.phase == Streaming(w) && SentObject(st, w, st', u)
    ensures GhostsOk(c, st')
  {
    FewerGhosts(c, st, st');
    assert st'.phase.w.s == w.s.(pending := w.s.pending - {u}) && st'.phase.w.seen == w.seen;
  }

  lemma ObjectGhosts(c: World, st: State, w: Watching, i: Input)
    requires GhostsOk(c, st) && Safe(c, st) && st.phase == Streaming(w) && i.SendObject?
    ensures GhostsOk(c, StepStreaming(c, st, w, i))
  {
    ObjectForms(c, st, w, i.uid);
    var st' := StepStreaming(c, st, w, i);
    if st' != st { SentGhosts(c, st, w, st', i.uid); }
  }

  lemma TookStream(c: World, st: State, w: Watching, st': State, u: Uid)
    requires GhostsExplained(c.h, View(st.out), st.audit) && Gone(c.h, st.audit.ghosts, w.s.pos, {})
    requires w.s.pending == {} && TookChange(c, st, w, st', u)
    ensures Gone(c.h, st'.audit.ghosts, w.s.pos + 1, {})
    ensures st'.phase.Streaming? && st'.phase.w.s == w.s.(pos := w.s.pos + 1) && st'.phase.w.seen == w.seen
  {
    GoneNext(c.h, st.audit.ghosts, st'.audit.ghosts, w.s.pos);
  }

  lemma TookGhosts(c: World, st: State, w: Watching, st': State, u: Uid)
    requires GhostsOk(c, st) && GhostsExplained(c.h, View(st.out), st.audit)
    requires st.phase == Streaming(w) && w.s.pending == {} && TookChange(c, st, w, st', u)
    ensures GhostsOk(c, st')
  {
    TookStream(c, st, w, st', u);
    LessGone(c.h, st.audit.ghosts, st'.audit.ghosts, st.store);
    LessGone(c.h, st.audit.ghosts, st'.audit.ghosts, st.rv);
    LessGone(c.h, st.audit.ghosts, st'.audit.ghosts, w.seen);
  }

  lemma LessGone(h: seq<Change>, ghosts: map<Uid, nat>, ghosts': map<Uid, nat>, x: Option<nat>)
    requires GoneUpTo(h, ghosts, x) && forall u :: u in ghosts' ==> u in ghosts && ghosts'[u] == ghosts[u]
    ensures GoneUpTo(h, ghosts', x)
  {
  }

  lemma SkipGhosts(c: World, st: State, w: Watching)
    requires GhostsOk(c, st) && Safe(c, st) && st.phase == Streaming(w) && w.s.pending == {}
    requires w.s.pos < |c.h| && c.h[w.s.pos].Elsewhere?
    ensures GhostsOk(c, Skipped(st, w))
  {
    GoneNext(c.h, st.audit.ghosts, st.audit.ghosts, w.s.pos);
  }

  /** The three things the next change can be: not due, outside the resource, or delivered. */
  lemma ChangeForms(c: World, st: State, w: Watching)
    requires Safe(c, st) && st.phase == Streaming(w)
    ensures var st' := StepStreaming(c, st, w, SendChange);
            || st' == st
            || (w.s.pending == {} && w.s.pos < |c.h| && c.h[w.s.pos].Elsewhere? && st' == Skipped(st, w))
            || (w.s.pending == {} && w.s.pos < |c.h| && !c.h[w.s.pos].Elsewhere? && TookChange(c, st, w, st', c.h[w.s.pos].obj.uid))
  {
    if w.listing || w.s.pending != {} || w.s.pos >= |c.h| {
      StaySafe(c, st, w);
    } else if !c.h[w.s.pos].Elsewhere? {
      var typ, obj := EventTypeAt(c.h, w.s.pos), c.h[w.s.pos].obj;
      ConvertedEntry(w.initial, typ, obj);
      EmitTakesChange(c, st, w, Converted(w.initial, typ, obj));
    }
  }

  lemma ChangeGhosts(c: World, st: State, w: Watching, st': State)
    requires GhostsOk(c, st) && Safe(c, st) && st.phase == Streaming(w) && st' == StepStreaming(c, st, w, SendChange)
    ensures GhostsOk(c, st')
  {
    ChangeForms(c, st, w);
    if st' != st {
      if c.h[w.s.pos].Elsewhere? { SkipGhosts(c, st, w); } else { TookGhosts(c, st, w, st', c.h[w.s.pos].obj.uid); }
    }
  }

  lemma BookmarkGhosts(c: World, st: State, w: Watching, i: Input)
    requires GhostsOk(c, st) && Control(c, st) && Polite(st, i) && st.phase == Streaming(w) && i.SendBookmark?
    ensures GhostsOk(c, StepStreaming(c, st, w, i))
  {
    if !w.listing && Serve(c.h, w.s, i).1.Some? { BookmarkAtPos(c, st, w, i); }
  }

  lemma EndGhosts(c: World, st: State, w: Watching, o: Outcome)
    requires GhostsOk(c, st) && st.phase == Streaming(w)
    ensures GhostsOk(c, StreamEnded(st, w)) && GhostsOk(c, Rejected(StreamEnded(st, w), o))
  {
  }

  lemma RecordGhosts(c: World, st: State, w: Watching, w': Watching, o: Outcome)
    requires GhostsOk(c, st) && st.phase == Streaming(w) && w.s.pending == {} && w' == w.(listing := w'.listing)
    ensures GhostsOk(c, Record(st, w', w.s.pos, o))
  {
  }

  lemma OtherGhosts(c: World, st: State, w: Watching, i: Input)
    requires GhostsOk(c, st) && Safe(c, st) && st.phase == Streaming(w)
    requires !i.SendObject? && !i.SendChange? && !i.SendBookmark?
    ensures GhostsOk(c, StepStreaming(c, st, w, i))
  {
    StaySafe(c, st, w);
    match i {
      case Persist(o) => if w.listing && w.s.pending == {} { RecordGhosts(c, st, w, w.(listing := false), o); }
      case SendStale(o) => EndGhosts(c, st, w, o);
      case CloseStream => EndGhosts(c, st, w, Done);
      case _ =>
    }
  }

  lemma StreamGhosts(c: World, st: State, w: Watching, i: Input)
    requires GhostsOk(c, st) && Safe(c, st) && Control(c, st) && Polite(st, i) && st.phase == Streaming(w)
    ensures GhostsOk(c, StepStreaming(c, st, w, i))
  {
    if i.SendObject? {
      ObjectGhosts(c, st, w, i);
    } else if i.SendChange? {
      ChangeGhosts(c, st, w, StepStreaming(c, st, w, i));
    } else if i.SendBookmark? {
      BookmarkGhosts(c, st, w, i);
    } else {
      OtherGhosts(c, st, w, i);
    }
  }

  lemma OpenedGhosts(c: World, st: State, kind: WatcherKind, s: Stream)
    requires GhostsOk(c, st) && Core(c, st) && st.audit.hw <= s.pos <= |c.h| && s.pending == StateAt(c.h, s.pos).Keys
    ensures GhostsOk(c, Opened(c, st, kind, s, true))
  {
    var st' := Opened(c, st, kind, s, true);
    assert Renoted(c.h, st.audit.ghosts, st'.audit.ghosts, s.pos);
    GoneLess(c.h, st.audit.ghosts, st'.audit.ghosts, s.pos, st.store);
    GoneLess(c.h, st.audit.ghosts, st'.audit.ghosts, s.pos, st.rv);
  }

  lemma PlainGhosts(c: World, st: State, l: nat)
    requires GhostsOk(c, st) && Core(c, st) && Latest(c, st, l)
    ensures GhostsOk(c, OpenPlain(c, st, l))
  {
    var o := RequestOptions(c, st);
    if o.resourceVersion == None { OpenedGhosts(c, st, Plain, OpenStream(c.h, o, l)); }
  }

  lemma ListedGhosts(c: World, st: State, at: nat)
    requires GhostsOk(c, st) && Core(c, st) && at == st.audit.hw
    ensures GhostsOk(c, OpenListed(c, st, at))
  {
    var s := OpenStream(c.h, WithResourceVersion(SharedOptions(c.bookmarking, st.watchList), Some(at)), at);
    OpenedGhosts(c, st, ListRecovery, s.(pending := StateAt(c.h, at).Keys));
  }

  /** Outside a stream, a step that opens none only forgets versions, or loads the stored one. */
  ghost predicate Quiet(st: State, st': State) {
    && !st'.phase.Streaming? && st'.out == st.out && st'.audit.ghosts == st.audit.ghosts
    && (st'.store == st.store || st'.store == None) && (st'.rv == st.rv || st'.rv == None || st'.rv == st.store)
  }

  /** A step that opens a stream opens one of three. */
  ghost predicate OpensBy(c: World, st: State, st': State, i: Input) {
    i.Open? &&
    ( || (Latest(c, st, i.version) && st' == OpenPlain(c, st, i.version))
      || (Latest(c, st, i.version) && st.watchList && st' == OpenInitialEvents(c, st, i.version))
      || (st.phase.Opening? && st' == OpenListed(c, st, st.phase.at)))
  }

  lemma ConnectingQuiet(c: World, st: State, i: Input)
    requires st.phase.Connecting?
    ensures Quiet(st, StepConnecting(c, st, i)) || OpensBy(c, st, StepConnecting(c, st, i), i)
  {
  }

  lemma StartupQuiet(c: World, st: State, i: Input)
    requires !st.phase.Streaming?
    ensures Quiet(st, StepStartup(c, st, i)) || OpensBy(c, st, StepStartup(c, st, i), i)
  {
  }

  lemma ProcessQuiet(c: World, st: State, i: Input)
    requires !st.phase.Streaming? && ProcessInput(st, i)
    ensures Quiet(st, Step(c, st, i))
  {
  }

  lemma QuietOrOpening(c: World, st: State, i: Input)
    requires !st.phase.Streaming? && !i.Foreign?
    ensures Quiet(st, Step(c, st, i)) || OpensBy(c, st, Step(c, st, i), i)
  {
    if ProcessInput(st, i) {
      ProcessQuiet(c, st, i);
    } else if st.phase.Connecting? {
      ConnectingQuiet(c, st, i);
    } else if !st.phase.Opening? {
      StartupQuiet(c, st, i);
    }
  }

  lemma OpeningGhosts(c: World, st: State, i: Input)
    requires GhostsOk(c, st) && Safe(c, st) && Control(c, st) && OpensBy(c, st, Step(c, st, i), i)
    ensures GhostsOk(c, Step(c, st, i))
  {
    var st' := Step(c, st, i);
    if Latest(c, st, i.version) && st' == OpenPlain(c, st, i.version) {
      PlainGhosts(c, st, i.version);
    } else if st.phase.Opening? && st' == OpenListed(c, st, st.phase.at) {
      ListedGhosts(c, st, st.phase.at);
    } else {
      OpenedGhosts(c, st, InitialEvents, OpenStream(c.h, SharedOptions(c.bookmarking, true), i.version));
    }
  }

  lemma AnswerGhosts(c: World, st: State, i: Input)
    requires GhostsOk(c, st) && Safe(c, st) && Control(c, st) && !st.phase.Streaming? && !i.Foreign?
    ensures GhostsOk(c, Step(c, st, i))
  {
    QuietOrOpening(c, st, i);
    if OpensBy(c, st, Step(c, st, i), i) { OpeningGhosts(c, st, i); }
  }

  lemma StepGhosts(c: World, st: State, i: Input)
    requires GhostsOk(c, st) && Safe(c, st) && Control(c, st) && Polite(st, i)
    ensures GhostsOk(c, Step(c, st, i))
  {
    if st.phase.Streaming? && !ProcessInput(st, i) {
      StreamGhosts(c, st, st.phase.w, i);
    } else if !st.phase.Streaming? {
      AnswerGhosts(c, st, i);
    }
  }

  lemma {:induction false} RunGhosts(c: World, inputs: seq<Input>)
    requires PoliteRun(c, inputs)
    ensures GhostsOk(c, Run(c, Init(c), inputs))
    decreases |inputs|
  {
    if inputs != [] {
      var before := inputs[..|inputs| - 1];
      RunGhosts(c, before);
      PoliteIsFair(c, before);
      RunIsSafe(c, before);
      StepGhosts(c, Run(c, Init(c), before), inputs[|inputs| - 1]);
    }
  }

  // ---- where ghosts come from ---------------------------------------------------------------------------------

  /** This step opens a stream of all objects. */
  predicate OpensAll(c: World, st: State, st': State) {
    !st.phase.Streaming? && st'.phase.Streaming? && (st'.phase.w.kind.Plain? ==> RequestOptions(c, st).resourceVersion == None)
  }

  /** A stream of all objects opens without u while the consumer holds u. */
  predicate LosesSight(c: World, st: State, st': State, u: Uid) {
    OpensAll(c, st, st') && u in View(st.out) && u !in StateAt(c.h, st'.phase.w.s.pos)
  }

  predicate MentionedSince(out: seq<Entry>, n: nat, u: Uid) {
    exists j :: n <= j < |out| && out[j].uid == u
  }

  /** The k-th input made the consumer lose sight of u, and no entry has mentioned u since. */
  ghost predicate LostAt(c: World, inputs: seq<Input>, k: nat, u: Uid) {
    && k < |inputs|
    && LosesSight(c, Run(c, Init(c), inputs[..k]), Run(c, Init(c), inputs[..k + 1]), u)
    && !MentionedSince(Run(c, Init(c), inputs).out, |Run(c, Init(c), inputs[..k]).out|, u)
  }

  /** One step may add an entry, whose object is then no ghost, and otherwise leaves the output. */
  ghost predicate Notes(st: State, st': State) {
    || (st'.out == st.out && st'.audit.ghosts == st.audit.ghosts)
    || (exists e :: st'.out == st.out + [e] && st'.audit.ghosts == st.audit.ghosts - {e.uid})
  }

  ghost predicate OpensWithGhosts(c: World, st: State, st': State) {
    st'.out == st.out && forall u :: u in st'.audit.ghosts <==> u in st.audit.ghosts || LosesSight(c, st, st', u)
  }

  lemma EmitNotes(st: State, w: Watching, e: Result<Entry, EntryError>)
    ensures Notes(st, Emit(st, w, e))
  {
  }

  lemma DeliveryNotes(c: World, st: State, w: Watching, i: Input)
    requires i.SendObject? || i.SendChange?
    ensures Notes(st, StepStreaming(c, st, w, i))
  {
    var (s', e) := Serve(c.h, w.s, i);
    match e {
      case Some(Change(typ, obj)) =>
        EmitNotes(st, w.(s := s'), Converted(w.initial, typ, obj));
        EmitNotes(st, w.(s := s'), NewEntry(Pointer(obj), STWatchList, CTSnapshot));
      case _ =>
    }
  }

  lemma SilentNotes(c: World, st: State, w: Watching, i: Input)
    requires !i.SendObject? && !i.SendChange?
    ensures Notes(st, StepStreaming(c, st, w, i))
  {
  }

  lemma StreamNotes(c: World, st: State, i: Input)
    requires st.phase.Streaming?
    ensures Notes(st, Step(c, st, i))
  {
    if i.SendObject? || i.SendChange? { DeliveryNotes(c, st, st.phase.w, i); } else { SilentNotes(c, st, st.phase.w, i); }
  }

  lemma OpenedNotes(c: World, st: State, kind: WatcherKind, s: Stream, all: bool)
    requires !st.phase.Streaming? && (kind.Plain? ==> (all <==> RequestOptions(c, st).resourceVersion == None)) && (!kind.Plain? ==> all)
    ensures var st' := Opened(c, st, kind, s, all);
            (OpensAll(c, st, st') <==> all) && if all then OpensWithGhosts(c, st, st') else Notes(st, st')
  {
  }

  lemma OpeningNotes(c: World, st: State, i: Input)
    requires !st.phase.Streaming? && OpensBy(c, st, Step(c, st, i), i)
    ensures var st' := Step(c, st, i); if OpensAll(c, st, st') then OpensWithGhosts(c, st, st') else Notes(st, st')
  {
    var o, l := RequestOptions(c, st), i.version;
    OpenedNotes(c, st, Plain, OpenStream(c.h, o, l), o.resourceVersion == None);
    OpenedNotes(c, st, InitialEvents, OpenStream(c.h, SharedOptions(c.bookmarking, st.watchList), l), true);
    if st.phase.Opening? {
      var at := st.phase.at;
      var s := OpenStream(c.h, WithResourceVersion(SharedOptions(c.bookmarking, st.watchList), Some(at)), at);
      OpenedNotes(c, st, ListRecovery, s.(pending := StateAt(c.h, at).Keys), true);
    }
  }

  /** What one step does to the output and to the noted ghosts. */
  lemma StepNotes(c: World, st: State, i: Input)
    ensures var st' := Step(c, st, i); if OpensAll(c, st, st') then OpensWithGhosts(c, st, st') else Notes(st, st')
  {
    if i.Foreign? {
    } else if st.phase.Streaming? {
      StreamNotes(c, st, i);
    } else {
      QuietOrOpening(c, st, i);
      if OpensBy(c, st, Step(c, st, i), i) { OpeningNotes(c, st, i); }
    }
  }

  // ---- both directions over runs ------------------------------------------------------------------------------

  lemma OutGrows(c: World, inputs: seq<Input>, k: nat)
    requires k <= |inputs|
    ensures Run(c, Init(c), inputs[..k]).out <= Run(c, Init(c), inputs).out
    decreases |inputs| - k
  {
    if k < |inputs| {
      assert inputs[..k + 1][..k] == inputs[..k];
      StepNotes(c, Run(c, Init(c), inputs[..k]), inputs[k]);
      OutGrows(c, inputs, k + 1);
    } else {
      assert inputs[..k] == inputs;
    }
  }

  /** Adding no entry of u. */
  lemma MentionedLater(st: State, st': State, n: nat, u: Uid)
    requires n <= |st.out| && Notes(st, st') && (u in st'.audit.ghosts || !MentionedSince(st'.out, n, u))
    ensures MentionedSince(st'.out, n, u) <==> MentionedSince(st.out, n, u)
    ensures u in st'.audit.ghosts <==> u in st.audit.ghosts
  {
    if st'.out != st.out { assert st'.out[|st.out|].uid == u ==> MentionedSince(st'.out, n, u); }
    if MentionedSince(st.out, n, u) {
      var j :| n <= j < |st.out| && st.out[j].uid == u;
      assert st'.out[j].uid == u;
    }
  }

  /** In some step of the run the consumer lost sight of u, for good so far. */
  ghost predicate Lost(c: World, inputs: seq<Input>, u: Uid) {
    exists k :: LostAt(c, inputs, k, u)
  }

  lemma LostBefore(inputs: seq<Input>, k: nat)
    requires k < |inputs|
    ensures inputs[..|inputs| - 1][..k] == inputs[..k]
    ensures k + 1 < |inputs| ==> inputs[..|inputs| - 1][..k + 1] == inputs[..k + 1]
    ensures k + 1 == |inputs| ==> inputs[..k + 1] == inputs
  {
  }

  /** An earlier loss of sight is one still, unless the last step mentioned u. */
  lemma LostStep(c: World, inputs: seq<Input>, k: nat, u: Uid)
    requires k + 1 < |inputs|
    requires var before := inputs[..|inputs| - 1];
             var st, st' := Run(c, Init(c), before), Run(c, Init(c), inputs);
             |Run(c, Init(c), before[..k]).out| <= |st.out| ==>
               (MentionedSince(st'.out, |Run(c, Init(c), before[..k]).out|, u) <==>
                MentionedSince(st.out, |Run(c, Init(c), before[..k]).out|, u))
    ensures LostAt(c, inputs, k, u) <==> LostAt(c, inputs[..|inputs| - 1], k, u)
  {
    LostBefore(inputs, k);
    OutGrows(c, inputs[..|inputs| - 1], k);
  }

  /** Exactly where ghosts come from, in every run: u is noted as a ghost if and only if at some input a stream of all
      objects opened, at a version at which u was gone, while the consumer held u, and nothing was delivered of u since. */
  lemma {:induction false} GhostsAreObjectsLostSightOf(c: World, inputs: seq<Input>, u: Uid)
    ensures u in Run(c, Init(c), inputs).audit.ghosts <==> Lost(c, inputs, u)
    decreases |inputs|
  {
    if inputs != [] {
      GhostsAreObjectsLostSightOf(c, inputs[..|inputs| - 1], u);
      if u in Run(c, Init(c), inputs).audit.ghosts { LostSomewhere(c, inputs, u); }
      forall k | LostAt(c, inputs, k, u) ensures u in Run(c, Init(c), inputs).audit.ghosts { StaysLost(c, inputs, k, u); }
    }
  }

  lemma LostSomewhere(c: World, inputs: seq<Input>, u: Uid)
    requires inputs != [] && u in Run(c, Init(c), inputs).audit.ghosts
    requires u in Run(c, Init(c), inputs[..|inputs| - 1]).audit.ghosts <==> Lost(c, inputs[..|inputs| - 1], u)
    ensures Lost(c, inputs, u)
  {
    var before := inputs[..|inputs| - 1];
    var st, st' := Run(c, Init(c), before), Run(c, Init(c), inputs);
    GhostStep(c, st, inputs[|inputs| - 1], u);
    if u in st.audit.ghosts && SameMentions(st, st', u) {
      var k :| LostAt(c, before, k, u);
      LostStill(c, inputs, k, u);
    } else {
      LostNow(c, inputs, u);
    }
  }

  ghost predicate SameMentions(st: State, st': State, u: Uid) {
    forall n: nat :: n <= |st.out| ==> (MentionedSince(st'.out, n, u) <==> MentionedSince(st.out, n, u))
  }

  lemma GhostStep(c: World, st: State, i: Input, u: Uid)
    requires u in Step(c, st, i).audit.ghosts
    ensures var st' := Step(c, st, i);
            (LosesSight(c, st, st', u) && st'.out == st.out) || (u in st.audit.ghosts && SameMentions(st, st', u))
  {
    StepNotes(c, st, i);
    var st' := Step(c, st, i);
    if Notes(st, st') {
      forall n: nat | n <= |st.out| ensures MentionedSince(st'.out, n, u) <==> MentionedSince(st.out, n, u) {
        MentionedLater(st, st', n, u);
      }
    }
  }

  lemma LostStill(c: World, inputs: seq<Input>, k: nat, u: Uid)
    requires inputs != [] && LostAt(c, inputs[..|inputs| - 1], k, u)
    requires SameMentions(Run(c, Init(c), inputs[..|inputs| - 1]), Run(c, Init(c), inputs), u)
    ensures LostAt(c, inputs, k, u)
  {
    LostBefore(inputs, k);
    OutGrows(c, inputs[..|inputs| - 1], k);
    LostStep(c, inputs, k, u);
  }

  lemma LostNow(c: World, inputs: seq<Input>, u: Uid)
    requires inputs != []
    requires var st, st' := Run(c, Init(c), inputs[..|inputs| - 1]), Run(c, Init(c), inputs);
             LosesSight(c, st, st', u) && st'.out == st.out
    ensures Lost(c, inputs, u)
  {
    LostBefore(inputs, |inputs| - 1);
    assert LostAt(c, inputs, |inputs| - 1, u);
  }

  lemma StaysLost(c: World, inputs: seq<Input>, k: nat, u: Uid)
    requires inputs != [] && LostAt(c, inputs, k, u)
    requires u in Run(c, Init(c), inputs[..|inputs| - 1]).audit.ghosts <==> Lost(c, inputs[..|inputs| - 1], u)
    ensures u in Run(c, Init(c), inputs).audit.ghosts
  {
    var before := inputs[..|inputs| - 1];
    var st, st' := Run(c, Init(c), before), Run(c, Init(c), inputs);
    StepNotes(c, st, inputs[|inputs| - 1]);
    LostBefore(inputs, k);
    if k < |before| {
      OutGrows(c, before, k);
      if Notes(st, st') { MentionedLater(st, st', |Run(c, Init(c), before[..k]).out|, u); }
      LostStep(c, inputs, k, u);
    }
  }
}
