/** Bookmarks on a stream that is not a recovery while its initial objects are outstanding. The code keeps them unfiltered,
    for the store and for its own next request. Fair runs have only harmless ones; here is shown that this is no more than
    is needed: after any other there is a fair continuation that ends with a stored version the consumer is not up to. */
module ProtocolEarly {
  import opened Wrappers
  import opened Data
  import opened History
  import opened Requests
  import opened Protocol
  import opened ProtocolControl
  import opened ProtocolCoverage
  import opened ProtocolGhosts

  /** What is promised of the stored version: every object alive at it, and every object at all that is no ghost, is held
      as it was at that version or later. */
  ghost predicate Sound(c: World, st: State) {
    CoveredUpTo(c, st, st.store, st.audit.hw)
  }

  /** A crash now loses nothing: every object alive at the stored version was delivered at that version or later. */
  ghost predicate Lossless(c: World, st: State) {
    st.store.Some? ==>
      && st.store.value <= st.audit.hw
      && forall u :: u in StateAt(c.h, st.store.value) ==> Fresh(c.h, View(st.out), st.store.value, st.audit.hw, u)
  }

  ghost predicate FairFrom(c: World, st: State, rest: seq<Input>) {
    rest == [] ||
    (FairFrom(c, st, rest[..|rest| - 1]) && Fair(c, Run(c, st, rest[..|rest| - 1]), rest[|rest| - 1]))
  }

  lemma {:induction false} SafeFrom(c: World, st: State, rest: seq<Input>)
    requires Safe(c, st) && Control(c, st) && FairFrom(c, st, rest)
    ensures Safe(c, Run(c, st, rest)) && Control(c, Run(c, st, rest))
    decreases |rest|
  {
    if rest != [] {
      var before := Run(c, st, rest[..|rest| - 1]);
      SafeFrom(c, st, rest[..|rest| - 1]);
      StepKeepsSafe(c, before, rest[|rest| - 1]);
      StepKeepsControl(c, before, rest[|rest| - 1]);
    }
  }

  /** One more fair input. */
  lemma Onward(c: World, st: State, rest: seq<Input>, i: Input)
    requires FairFrom(c, st, rest) && Fair(c, Run(c, st, rest), i)
    ensures FairFrom(c, st, rest + [i]) && Run(c, st, rest + [i]) == Step(c, Run(c, st, rest), i)
  {
    assert (rest + [i])[..|rest|] == rest;
  }

  // ---- after the bookmark -------------------------------------------------------------------------------------

  /** st' is st after the early bookmark v. */
  ghost predicate KeptEarly(st: State, w: Watching, st': State, v: nat) {
    && st'.phase.Streaming? && st'.phase.w == w.(seen := Some(v), saved := st'.phase.w.saved)
    && st' == st.(phase := st'.phase, store := st'.store)
  }

  lemma EarlyStep(c: World, st: State, w: Watching, v: nat, o: Outcome)
    requires Control(c, st) && st.phase == Streaming(w) && w.kind.Plain? && w.s.pending != {}
    ensures var st' := Step(c, st, SendBookmark(v, false, o)); KeptEarly(st, w, st', v) && (st'.store == st.store || st'.store == Some(v))
  {
  }

  /** The handler resumes from v: the stream ends, and the next one opens at v. */
  function Resumed(st: State, v: nat): State {
    st.(rv := Some(v), gap := false, phase := Streaming(NewWatching(Plain, Stream({}, v, false), |st.out|)))
  }

  lemma Resumes(c: World, st: State, w: Watching, v: nat)
    requires Control(c, st) && c.bookmarking && st.phase == Streaming(w) && w.kind.Plain? && !w.listing && w.seen == Some(v)
    requires st.audit.hw <= |c.h|
    ensures var rest := [CloseStream, Open(st.audit.hw)];
            FairFrom(c, st, rest) && Run(c, st, rest) == Resumed(st, v)
  {
    var ended := StreamEnded(st, w);
    assert Step(c, st, CloseStream) == ended;
    assert Run(c, st, []) == st;
    Onward(c, st, [], CloseStream);
    Onward(c, st, [CloseStream], Open(st.audit.hw));
    assert [] + [CloseStream] == [CloseStream] && [CloseStream] + [Open(st.audit.hw)] == [CloseStream, Open(st.audit.hw)];
    OpensAt(c, ended, v);
    assert Step(c, ended, Open(st.audit.hw)) == Opened(c, ended, Plain, Stream({}, v, false), false);
  }

  lemma OpensAt(c: World, st: State, v: nat)
    requires c.bookmarking && st.rv == Some(v) && !st.gap
    ensures OpenPlain(c, st, st.audit.hw) == Opened(c, st, Plain, Stream({}, v, false), false)
  {
  }

  /** Where the handler has resumed from v, one ordinary bookmark stores v. */
  lemma StoresResumed(c: World, st: State, v: nat)
    ensures var st' := Resumed(st, v);
            Fair(c, st', SendBookmark(v, false, Done)) && var last := Step(c, st', SendBookmark(v, false, Done));
            last.store == Some(v) && last.out == st.out && last.audit == st.audit
  {
  }

  /** v is not covered: resumed from once, it is stored. If an object alive at v is the reason, that object is lost. */
  lemma UncoveredLoses(c: World, st: State, w: Watching, v: nat)
    requires Control(c, st) && c.bookmarking && st.phase == Streaming(w) && w.kind.Plain? && !w.listing && w.seen == Some(v)
    requires st.audit.hw <= |c.h| && !CoveredUpTo(c, st, Some(v), st.audit.hw)
    ensures var rest := [CloseStream, Open(st.audit.hw), SendBookmark(v, false, Done)];
            FairFrom(c, st, rest) && !Sound(c, Run(c, st, rest)) && Run(c, st, rest).out == st.out
    ensures (v > st.audit.hw || exists u :: u in StateAt(c.h, v) && !Fresh(c.h, View(st.out), v, st.audit.hw, u)) ==>
              !Lossless(c, Run(c, st, [CloseStream, Open(st.audit.hw), SendBookmark(v, false, Done)]))
  {
    Resumes(c, st, w, v);
    StoresResumed(c, st, v);
    Onward(c, st, [CloseStream, Open(st.audit.hw)], SendBookmark(v, false, Done));
    assert [CloseStream, Open(st.audit.hw)] + [SendBookmark(v, false, Done)] == [CloseStream, Open(st.audit.hw), SendBookmark(v, false, Done)];
  }

  // ---- replaying ----------------------------------------------------------------------------------------------

  function Changes(n: nat): seq<Input> {
    seq(n, _ => SendChange)
  }

  /** st' stands n changes after `from`, which resumed at v. */
  ghost predicate Replayed(c: World, from: State, v: nat, n: nat, st': State) {
    && st'.phase.Streaming? && st'.phase.w == NewWatching(Plain, Stream({}, v, false), |from.out|).(s := Stream({}, v + n, false))
    && st'.store == from.store && st'.audit.hw == from.audit.hw
  }

  lemma ReplayStep(c: World, from: State, v: nat, n: nat, st: State)
    requires Replayed(c, from, v, n, st) && v + n < from.audit.hw <= |c.h|
    ensures Replayed(c, from, v, n + 1, Step(c, st, SendChange)) && Fair(c, st, SendChange)
    ensures !c.h[v + n].Elsewhere? ==>
              var st' := Step(c, st, SendChange);
              var u := c.h[v + n].obj.uid;
              u !in st'.audit.ghosts && Look(View(st'.out), u) == Look(StateAt(c.h, v + n + 1), u)
  {
    var w := st.phase.w;
    if !c.h[w.s.pos].Elsewhere? {
      var typ, obj := EventTypeAt(c.h, w.s.pos), c.h[w.s.pos].obj;
      ConvertedEntry(w.initial, typ, obj);
      EmitTakesChange(c, st, w, Converted(w.initial, typ, obj));
    }
  }

  lemma {:induction false} Replays(c: World, from: State, v: nat, n: nat)
    requires Replayed(c, from, v, 0, from) && v + n <= from.audit.hw <= |c.h|
    ensures FairFrom(c, from, Changes(n)) && Replayed(c, from, v, n, Run(c, from, Changes(n)))
    decreases n
  {
    if n > 0 {
      Replays(c, from, v, n - 1);
      ReplayStep(c, from, v, n - 1, Run(c, from, Changes(n - 1)));
      Onward(c, from, Changes(n - 1), SendChange);
      assert Changes(n - 1) + [SendChange] == Changes(n);
    }
  }

  /** The change after k takes its object behind the stored version s: replaying up to it is enough. */
  lemma RewindLoses(c: World, from: State, v: nat, k: nat, s: nat)
    requires Replayed(c, from, v, 0, from) && from.store == Some(s) && v <= k < s <= from.audit.hw <= |c.h|
    requires !c.h[k].Elsewhere? && !HeldAgain(c.h, k, s, from.audit.hw)
    ensures FairFrom(c, from, Changes(k + 1 - v)) && !Sound(c, Run(c, from, Changes(k + 1 - v)))
  {
    var n := k - v;
    Replays(c, from, v, n);
    var st := Run(c, from, Changes(n));
    Onward(c, from, Changes(n), SendChange);
    assert Changes(n) + [SendChange] == Changes(n + 1);
    ChangeLoses(c, from, v, k, s, st);
  }

  lemma ChangeLoses(c: World, from: State, v: nat, k: nat, s: nat, st: State)
    requires v <= k < s <= from.audit.hw <= |c.h| && from.store == Some(s) && Replayed(c, from, v, k - v, st)
    requires !c.h[k].Elsewhere? && !HeldAgain(c.h, k, s, from.audit.hw)
    ensures !Sound(c, Step(c, st, SendChange))
  {
    ReplayStep(c, from, v, k - v, st);
    SoundIsHeldAgain(c, Step(c, st, SendChange), k, s);
  }

  lemma SoundIsHeldAgain(c: World, st: State, k: nat, s: nat)
    requires k < |c.h| && !c.h[k].Elsewhere? && st.store == Some(s)
    requires var u := c.h[k].obj.uid; u !in st.audit.ghosts && Look(View(st.out), u) == Look(StateAt(c.h, k + 1), u)
    ensures Sound(c, st) ==> HeldAgain(c.h, k, s, st.audit.hw)
  {
    if Sound(c, st) {
      assert Fresh(c.h, View(st.out), s, st.audit.hw, c.h[k].obj.uid);
    }
  }

  lemma {:induction false} FairConcat(c: World, st: State, a: seq<Input>, b: seq<Input>)
    requires FairFrom(c, st, a) && FairFrom(c, Run(c, st, a), b)
    ensures FairFrom(c, st, a + b) && Run(c, st, a + b) == Run(c, Run(c, st, a), b)
    decreases |b|
  {
    if b == [] {
      assert a + b == a;
    } else {
      FairConcat(c, st, a, b[..|b| - 1]);
      assert (a + b)[..|a + b| - 1] == a + b[..|b| - 1];
    }
  }

  /** A fair continuation after which the stored version is not sound. */
  ghost predicate CanLose(c: World, st: State) {
    exists rest :: FairFrom(c, st, rest) && !Sound(c, Run(c, st, rest))
  }

  lemma RewoundLoses(c: World, st: State, w: Watching, v: nat)
    requires Control(c, st) && c.bookmarking && st.phase == Streaming(w) && w.kind.Plain? && !w.listing && w.seen == Some(v)
    requires st.audit.hw <= |c.h| && !NotRewound(c, st, st.store, Some(v)) && st.store.value <= st.audit.hw
    ensures CanLose(c, st)
  {
    var s := st.store.value;
    var k :| v <= k < s && k < |c.h| && !c.h[k].Elsewhere? && !HeldAgain(c.h, k, s, st.audit.hw);
    Resumes(c, st, w, v);
    ResumedLoses(c, st, v, k, s);
  }

  lemma ResumedLoses(c: World, st: State, v: nat, k: nat, s: nat)
    requires var first := [CloseStream, Open(st.audit.hw)]; FairFrom(c, st, first) && Run(c, st, first) == Resumed(st, v)
    requires st.store == Some(s) && v <= k < s <= st.audit.hw <= |c.h|
    requires !c.h[k].Elsewhere? && !HeldAgain(c.h, k, s, st.audit.hw)
    ensures CanLose(c, st)
  {
    RewindLoses(c, Resumed(st, v), v, k, s);
    FairConcat(c, st, [CloseStream, Open(st.audit.hw)], Changes(k + 1 - v));
  }

  // ---- the exact condition ------------------------------------------------------------------------------------

  /** Take any fair run and an early bookmark v at its end. Whether or not the store takes it, no fair continuation can end
      with an unsound stored version if and only if v is harmless: the consumer has caught up with v, and resuming from v
      takes nothing behind what the store then holds. */
  lemma EarlyBookmarkHarmlessExactly(c: World, inputs: seq<Input>, v: nat, o: Outcome)
    requires FairRun(c, inputs) && c.bookmarking && Early(Run(c, Init(c), inputs), SendBookmark(v, false, o))
    ensures var st := Run(c, Init(c), inputs);
            var st' := Step(c, st, SendBookmark(v, false, o));
            !CanLose(c, st') <==> Harmless(c, st, st.phase.w, v, st'.store)
  {
    RunIsSafe(c, inputs);
    var st := Run(c, Init(c), inputs);
    EarlyStep(c, st, st.phase.w, v, o);
    StepKeepsControl(c, st, SendBookmark(v, false, o));
    if Harmless(c, st, st.phase.w, v, Step(c, st, SendBookmark(v, false, o)).store) {
      HarmlessKeeps(c, st, v, o);
    } else {
      HarmfulLoses(c, st, v, o);
    }
  }

  lemma HarmlessKeeps(c: World, st: State, v: nat, o: Outcome)
    requires Safe(c, st) && Control(c, st) && Early(st, SendBookmark(v, false, o))
    requires Harmless(c, st, st.phase.w, v, Step(c, st, SendBookmark(v, false, o)).store)
    ensures !CanLose(c, Step(c, st, SendBookmark(v, false, o)))
  {
    var st' := Step(c, st, SendBookmark(v, false, o));
    StepKeepsSafe(c, st, SendBookmark(v, false, o));
    StepKeepsControl(c, st, SendBookmark(v, false, o));
    forall rest | FairFrom(c, st', rest) ensures Sound(c, Run(c, st', rest)) {
      SafeFrom(c, st', rest);
    }
  }

  lemma HarmfulLoses(c: World, st: State, v: nat, o: Outcome)
    requires Safe(c, st) && Control(c, st) && c.bookmarking && Early(st, SendBookmark(v, false, o))
    requires var st' := Step(c, st, SendBookmark(v, false, o));
             Control(c, st') && KeptEarly(st, st.phase.w, st', v) && (st'.store == st.store || st'.store == Some(v))
             && !Harmless(c, st, st.phase.w, v, st'.store)
    ensures CanLose(c, Step(c, st, SendBookmark(v, false, o)))
  {
    var st' := Step(c, st, SendBookmark(v, false, o));
    if !CoveredUpTo(c, st, Some(v), st.phase.w.s.pos) {
      UncoveredLoses(c, st', st'.phase.w, v);
    } else {
      RewoundLoses(c, st', st'.phase.w, v);
    }
  }

  /** Only outstanding objects and ghosts can stand in the way: the consumer has caught up with v exactly when it is not
      newer than the stream and each of those, if alive at v or no ghost, is held as it was at v or later. */
  ghost predicate DoubtfulAreFresh(c: World, st: State, w: Watching, v: nat) {
    forall u :: (u in w.s.pending || u in st.audit.ghosts) && (u in StateAt(c.h, v) || u !in st.audit.ghosts) ==>
      Fresh(c.h, View(st.out), v, w.s.pos, u)
  }

  lemma HarmlessMeans(c: World, st: State, w: Watching, v: nat, store: Option<nat>)
    requires Safe(c, st) && st.phase == Streaming(w) && w.s.pending != {}
    ensures Harmless(c, st, w, v, store) <==> v <= w.s.pos && DoubtfulAreFresh(c, st, w, v) && NotRewound(c, st, store, Some(v))
  {
    if v <= w.s.pos && DoubtfulAreFresh(c, st, w, v) {
      forall u | u in StateAt(c.h, v) || u !in st.audit.ghosts ensures Fresh(c.h, View(st.out), v, st.audit.hw, u) {
        if u !in w.s.pending && u !in st.audit.ghosts {
          assert Fresh(c.h, View(st.out), w.s.pos, st.audit.hw, u);
        }
      }
    }
  }

  lemma FreshNow(h: seq<Change>, view: Objects, x: nat, u: Uid)
    ensures Fresh(h, view, x, x, u) <==> Look(view, u) == Look(StateAt(h, x), u)
  {
    if Look(view, u) == Look(StateAt(h, x), u) { FreshAt(h, view, x, x, u, x); }
  }

  /** A bookmark at the stream's own version is harmless exactly when everything outstanding is already held as it is. */
  lemma EarlyBookmarkAtStreamVersion(c: World, inputs: seq<Input>, o: Outcome)
    requires FairRun(c, inputs) && c.bookmarking
    requires var st := Run(c, Init(c), inputs);
             st.phase.Streaming? && Early(st, SendBookmark(st.phase.w.s.pos, false, o))
    ensures var st := Run(c, Init(c), inputs);
            var w := st.phase.w;
            !CanLose(c, Step(c, st, SendBookmark(w.s.pos, false, o))) <==>
              forall u :: u in w.s.pending ==> Look(View(st.out), u) == Look(StateAt(c.h, w.s.pos), u)
  {
    RunIsSafe(c, inputs);
    RunKeepsControl(c, inputs);
    var st := Run(c, Init(c), inputs);
    var w := st.phase.w;
    EarlyBookmarkHarmlessExactly(c, inputs, w.s.pos, o);
    EarlyStep(c, st, w, w.s.pos, o);
    AtPosition(c, st, w, Step(c, st, SendBookmark(w.s.pos, false, o)).store);
  }

  lemma AtPosition(c: World, st: State, w: Watching, store: Option<nat>)
    requires Safe(c, st) && st.phase == Streaming(w) && w.s.pending != {} && (store == st.store || store == Some(w.s.pos))
    ensures Harmless(c, st, w, w.s.pos, store) <==>
              forall u :: u in w.s.pending ==> Look(View(st.out), u) == Look(StateAt(c.h, w.s.pos), u)
  {
    var view, pos := View(st.out), w.s.pos;
    forall u ensures Fresh(c.h, view, pos, pos, u) <==> Look(view, u) == Look(StateAt(c.h, pos), u) { FreshNow(c.h, view, pos, u); }
  }

  // ---- the first stream ---------------------------------------------------------------------------------------

  /** A consumer that held nothing when the stream opened holds nothing of what is outstanding. */
  ghost predicate NothingHeld(st: State) {
    st.phase.Streaming? && !st.audit.reopened ==> forall u :: u in st.phase.w.s.pending ==> u !in View(st.out)
  }

  lemma EmitNotHeld(st: State, w: Watching, w': Watching, u: Uid, e: Entry)
    requires st.phase == Streaming(w) && NothingHeld(st) && e.uid == u && w'.s.pending == w.s.pending - {u}
    ensures NothingHeld(Emit(st, w', Ok(e)))
  {
    ViewSnoc(st.out, e);
  }

  lemma ObjectNotHeld(c: World, st: State, w: Watching, u: Uid)
    requires Safe(c, st) && st.phase == Streaming(w) && NothingHeld(st)
    ensures NothingHeld(StepStreaming(c, st, w, SendObject(u)))
  {
    var (s', e) := Serve(c.h, w.s, SendObject(u));
    StateObjects(c.h, w.s.pos);
    StaySafe(c, st, w);
    if e.Some? {
      var entry := if w.listing then NewEntry(Pointer(e.value.obj), STWatchList, CTSnapshot) else Converted(w.initial, Added, e.value.obj);
      EmitNotHeld(st, w, w.(s := s'), u, entry.value);
    }
  }

  lemma ChangeNotHeld(c: World, st: State, w: Watching, st': State)
    requires Safe(c, st) && st.phase == Streaming(w) && NothingHeld(st) && st' == StepStreaming(c, st, w, SendChange)
    ensures NothingHeld(st')
  {
    ChangeForms(c, st, w);
  }

  lemma RecordNotHeld(st: State, w: Watching, w': Watching, v: nat, o: Outcome)
    requires st.phase == Streaming(w) && NothingHeld(st) && w'.s.pending == w.s.pending
    ensures NothingHeld(Record(st, w', v, o))
  {
  }

  lemma BookmarkNotHeld(c: World, st: State, w: Watching, i: Input)
    requires Safe(c, st) && st.phase == Streaming(w) && NothingHeld(st) && i.SendBookmark?
    ensures NothingHeld(StepStreaming(c, st, w, i))
  {
    var (s', e) := Serve(c.h, w.s, i);
    assert s' == w.s.(owed := s'.owed);
    StaySafe(c, st, w);
    if !w.listing && e.Some? && !(w.initial && !i.annotated) {
      RecordNotHeld(st, w, w.(s := s', initial := false), i.version, i.outcome);
    }
  }

  lemma RestNotHeld(c: World, st: State, w: Watching, i: Input)
    requires Safe(c, st) && st.phase == Streaming(w) && NothingHeld(st)
    requires !i.SendObject? && !i.SendChange? && !i.SendBookmark?
    ensures NothingHeld(StepStreaming(c, st, w, i))
  {
    StaySafe(c, st, w);
  }

  lemma OpenNotHeld(c: World, st: State, i: Input)
    requires OpensBy(c, st, Step(c, st, i), i)
    ensures NothingHeld(Step(c, st, i))
  {
  }

  lemma ProcessNotHeld(c: World, st: State, i: Input)
    requires NothingHeld(st) && ProcessInput(st, i) && st.phase.Streaming?
    ensures NothingHeld(Step(c, st, i))
  {
  }

  lemma StepNotHeld(c: World, st: State, i: Input)
    requires Safe(c, st) && NothingHeld(st) && !i.Foreign?
    ensures NothingHeld(Step(c, st, i))
  {
    if !st.phase.Streaming? {
      QuietOrOpening(c, st, i);
      if OpensBy(c, st, Step(c, st, i), i) { OpenNotHeld(c, st, i); }
    } else if ProcessInput(st, i) {
      ProcessNotHeld(c, st, i);
    } else if i.SendObject? {
      ObjectNotHeld(c, st, st.phase.w, i.uid);
    } else if i.SendChange? {
      ChangeNotHeld(c, st, st.phase.w, Step(c, st, i));
    } else if i.SendBookmark? {
      BookmarkNotHeld(c, st, st.phase.w, i);
    } else {
      RestNotHeld(c, st, st.phase.w, i);
    }
  }

  lemma {:induction false} RunNotHeld(c: World, inputs: seq<Input>)
    requires FairRun(c, inputs)
    ensures NothingHeld(Run(c, Init(c), inputs))
    decreases |inputs|
  {
    if inputs != [] {
      var before := inputs[..|inputs| - 1];
      RunNotHeld(c, before);
      RunIsSafe(c, before);
      StepNotHeld(c, Run(c, Init(c), before), inputs[|inputs| - 1]);
    }
  }

  /** At some version from v to l the object did not exist, so a stream resumed from v announces it. */
  ghost predicate AbsentBetween(h: seq<Change>, v: nat, l: nat, u: Uid) {
    exists w :: v <= w <= l && u !in StateAt(h, w)
  }

  lemma NotHeldFresh(h: seq<Change>, view: Objects, v: nat, l: nat, u: Uid)
    requires u !in view
    ensures Fresh(h, view, v, l, u) <==> AbsentBetween(h, v, l, u)
  {
    if Fresh(h, view, v, l, u) {
      var w :| v <= w <= l && Look(view, u) == Look(StateAt(h, w), u);
      assert u !in StateAt(h, w);
    }
    if AbsentBetween(h, v, l, u) {
      var w :| v <= w <= l && u !in StateAt(h, w);
      FreshAt(h, view, v, l, u, w);
    }
  }

  /** On the first stream of all objects, where the consumer started with nothing, the condition is the server's: the
      bookmark is not newer than the stream, no outstanding object existed all the way from it to the stream's version,
      and the history takes nothing back behind the store. */
  lemma EarlyBookmarkOnFirstStream(c: World, inputs: seq<Input>, v: nat, o: Outcome)
    requires FairRun(c, inputs) && c.bookmarking && Early(Run(c, Init(c), inputs), SendBookmark(v, false, o))
    requires !Run(c, Init(c), inputs).audit.reopened
    ensures var st := Run(c, Init(c), inputs);
            var w, st' := st.phase.w, Step(c, st, SendBookmark(v, false, o));
            !CanLose(c, st') <==>
              && v <= w.s.pos && NotRewound(c, st, st'.store, Some(v))
              && forall u :: u in w.s.pending ==> AbsentBetween(c.h, v, w.s.pos, u)
  {
    RunIsSafe(c, inputs);
    RunNotHeld(c, inputs);
    var st := Run(c, Init(c), inputs);
    EarlyBookmarkHarmlessExactly(c, inputs, v, o);
    HarmlessMeans(c, st, st.phase.w, v, Step(c, st, SendBookmark(v, false, o)).store);
    forall u | u in st.phase.w.s.pending
      ensures Fresh(c.h, View(st.out), v, st.phase.w.s.pos, u) <==> AbsentBetween(c.h, v, st.phase.w.s.pos, u)
    {
      NotHeldFresh(c.h, View(st.out), v, st.phase.w.s.pos, u);
    }
  }

  /** Without bookmarking the question does not arise: no version is loaded, and no watch that is not a list recovery's is
      requested from one, so whatever the store was given is never resumed from. */
  lemma NothingResumedWithoutBookmarking(c: World, inputs: seq<Input>, i: Input)
    requires !c.bookmarking
    ensures var st := Run(c, Init(c), inputs);
            var st' := Step(c, st, i);
            && (i.Start? && Idle(st.phase) ==> st'.rv == None)
            && (!st.phase.Streaming? && st'.phase.Streaming? ==>
                  st'.phase.w.s.pending == StateAt(c.h, st'.phase.w.s.pos).Keys && st'.phase.w.start == st'.phase.w.s.pos)
  {
    RunKeepsControl(c, inputs);
    var st := Run(c, Init(c), inputs);
    if !i.Foreign? && !st.phase.Streaming? { QuietOrOpening(c, st, i); }
  }
}
