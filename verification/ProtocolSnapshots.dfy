/** What a recovery has delivered, whatever the server, the store and other writers do: a gap closes only over a full
    snapshot. */
module ProtocolSnapshots {
  import opened Wrappers
  import opened Data
  import opened History
  import opened Requests
  import opened Protocol
  import opened ProtocolControl
  import opened ProtocolGhosts

  /** out[j] is the snapshot of u at the state it had at version v. */
  predicate SnapshotAt(h: seq<Change>, out: seq<Entry>, j: nat, v: nat, u: Uid) {
    && j < |out| && u in StateAt(h, v)
    && out[j].uid == u && out[j].data == StateAt(h, v)[u] && out[j].changeType == CTSnapshot
  }

  /** One of the entries from `base` up to `end` is the snapshot of u. */
  ghost predicate Snapshotted(h: seq<Change>, out: seq<Entry>, base: nat, end: nat, v: nat, u: Uid) {
    exists j :: base <= j < end && SnapshotAt(h, out, j, v, u)
  }

  /** The entries from `base` up to `end` are snapshots of objects alive at v, and every such object outside `pending` has
      its snapshot among them. */
  ghost predicate AllSnapshotted(h: seq<Change>, out: seq<Entry>, base: nat, end: nat, v: nat, pending: set<Uid>) {
    && base <= end <= |out|
    && (forall j :: base <= j < end ==> SnapshotAt(h, out, j, v, out[j].uid))
    && forall u :: u in StateAt(h, v) && u !in pending ==> Snapshotted(h, out, base, end, v, u)
  }

  /** Where a stream's snapshots end in the output: as many after `base` as objects were alive when it opened, less those
      outstanding. */
  function SnapshotsEnd(h: seq<Change>, w: Watching): int {
    w.base + |StateAt(h, w.start).Keys| - |w.s.pending|
  }

  ghost predicate RecoveryOk(c: World, st: State, w: Watching) {
    !w.kind.Plain? ==>
      && 0 <= SnapshotsEnd(c.h, w) <= w.cut
      && (w.s.pending != {} ==> w.s.pos == w.start && SnapshotsEnd(c.h, w) == |st.out|)
      && AllSnapshotted(c.h, st.out, w.base, SnapshotsEnd(c.h, w), w.start, w.s.pending)
  }

  ghost predicate SnapshotsOk(c: World, st: State) {
    Control(c, st) && (st.phase.Streaming? ==> RecoveryOk(c, st, st.phase.w))
  }

  /** More output keeps what was delivered. */
  lemma SnapshottedLater(h: seq<Change>, out: seq<Entry>, out': seq<Entry>, base: nat, end: nat, end': nat, v: nat, u: Uid)
    requires Snapshotted(h, out, base, end, v, u) && out <= out' && end <= end'
    ensures Snapshotted(h, out', base, end', v, u)
  {
    var j :| base <= j < end && SnapshotAt(h, out, j, v, u);
    assert SnapshotAt(h, out', j, v, u);
  }

  lemma AllLater(h: seq<Change>, out: seq<Entry>, out': seq<Entry>, base: nat, end: nat, v: nat, pending: set<Uid>)
    requires AllSnapshotted(h, out, base, end, v, pending) && out <= out'
    ensures AllSnapshotted(h, out', base, end, v, pending)
  {
    forall u | u in StateAt(h, v) && u !in pending ensures Snapshotted(h, out', base, end, v, u) {
      SnapshottedLater(h, out, out', base, end, end, v, u);
    }
  }

  /** An outstanding object is delivered. */
  lemma ObjectKeeps(c: World, st: State, w: Watching, u: Uid, e: Entry)
    requires Control(c, st) && st.phase == Streaming(w) && RecoveryOk(c, st, w) && !w.kind.Plain? && (w.initial || w.listing)
    requires u in w.s.pending && SnapshotAt(c.h, [e], 0, w.s.pos, u)
    ensures RecoveryOk(c, Emit(st, w.(s := w.s.(pending := w.s.pending - {u})), Ok(e)),
                       w.(s := w.s.(pending := w.s.pending - {u}), cut := |st.out| + 1))
  {
    var out', end := st.out + [e], |st.out|;
    assert SnapshotAt(c.h, out', end, w.start, u);
    assert |w.s.pending - {u}| == |w.s.pending| - 1;
    forall j | w.base <= j < end ensures SnapshotAt(c.h, out', j, w.start, out'[j].uid) {
      assert SnapshotAt(c.h, st.out, j, w.start, st.out[j].uid);
    }
    forall u' | u' in StateAt(c.h, w.start) && u' !in w.s.pending - {u} ensures Snapshotted(c.h, out', w.base, end + 1, w.start, u') {
      if u' != u { SnapshottedLater(c.h, st.out, out', w.base, end, end + 1, w.start, u'); }
    }
  }

  lemma SendObjectKeeps(c: World, st: State, w: Watching, u: Uid)
    requires SnapshotsOk(c, st) && st.phase == Streaming(w)
    ensures var st' := StepStreaming(c, st, w, SendObject(u)); st'.phase.Streaming? && RecoveryOk(c, st', st'.phase.w)
  {
    var (s', e) := Serve(c.h, w.s, SendObject(u));
    if e.Some? && !w.kind.Plain? {
      StateObjects(c.h, w.s.pos);
      var entry := EntryOf(e.value.obj, CTSnapshot);
      assert NewEntry(Pointer(e.value.obj), STWatchList, CTSnapshot) == Ok(entry);
      ObjectKeeps(c, st, w, u, entry);
    }
  }

  /** What else happens on the stream: nothing is sent while objects are outstanding, and later on the output only grows. */
  ghost predicate Grows(st: State, w: Watching, st': State) {
    st'.phase.Streaming? ==>
      && st'.phase.w.kind == w.kind && st'.phase.w.start == w.start && st'.phase.w.base == w.base
      && w.cut <= st'.phase.w.cut && st'.phase.w.s.pending == w.s.pending && st.out <= st'.out
      && (w.s.pending != {} ==> st'.phase.w.s.pos == w.s.pos && st'.out == st.out)
  }

  lemma GrowthKeeps(c: World, st: State, w: Watching, st': State)
    requires RecoveryOk(c, st, w) && Grows(st, w, st') && st'.phase.Streaming?
    ensures RecoveryOk(c, st', st'.phase.w)
  {
    if !w.kind.Plain? {
      AllLater(c.h, st.out, st'.out, w.base, SnapshotsEnd(c.h, w), w.start, w.s.pending);
    }
  }

  lemma ChangeGrows(c: World, st: State, w: Watching)
    requires Control(c, st) && st.phase == Streaming(w)
    ensures Grows(st, w, StepStreaming(c, st, w, SendChange))
  {
  }

  lemma BookmarkGrows(c: World, st: State, w: Watching, i: Input)
    requires st.phase == Streaming(w) && i.SendBookmark?
    ensures Grows(st, w, StepStreaming(c, st, w, i))
  {
  }

  lemma RestGrows(c: World, st: State, w: Watching, i: Input)
    requires st.phase == Streaming(w) && !i.SendObject? && !i.SendChange? && !i.SendBookmark?
    ensures Grows(st, w, StepStreaming(c, st, w, i))
  {
  }

  lemma StreamKeeps(c: World, st: State, w: Watching, i: Input)
    requires SnapshotsOk(c, st) && st.phase == Streaming(w)
    ensures var st' := StepStreaming(c, st, w, i); st'.phase.Streaming? ==> RecoveryOk(c, st', st'.phase.w)
  {
    var st' := StepStreaming(c, st, w, i);
    if i.SendObject? {
      SendObjectKeeps(c, st, w, i.uid);
    } else {
      if i.SendChange? {
        ChangeGrows(c, st, w);
      } else if i.SendBookmark? {
        BookmarkGrows(c, st, w, i);
      } else {
        RestGrows(c, st, w, i);
      }
      if st'.phase.Streaming? { GrowthKeeps(c, st, w, st'); }
    }
  }

  /** A recovery opens with every object outstanding. */
  lemma OpenedKeeps(c: World, st: State, i: Input)
    requires Control(c, st) && OpensBy(c, st, Step(c, st, i), i)
    ensures var st' := Step(c, st, i); st'.phase.Streaming? ==> RecoveryOk(c, st', st'.phase.w)
  {
  }

  lemma OpenKeeps(c: World, st: State, i: Input)
    requires Control(c, st) && !st.phase.Streaming?
    ensures var st' := Step(c, st, i); st'.phase.Streaming? ==> RecoveryOk(c, st', st'.phase.w)
  {
    if !i.Foreign? {
      QuietOrOpening(c, st, i);
      if OpensBy(c, st, Step(c, st, i), i) { OpenedKeeps(c, st, i); }
    }
  }

  lemma {:induction false} RunSnapshots(c: World, inputs: seq<Input>)
    ensures SnapshotsOk(c, Run(c, Init(c), inputs))
    decreases |inputs|
  {
    RunKeepsControl(c, inputs);
    if inputs != [] {
      RunSnapshots(c, inputs[..|inputs| - 1]);
      StepSnapshots(c, Run(c, Init(c), inputs[..|inputs| - 1]), inputs[|inputs| - 1]);
    }
  }

  lemma StepSnapshots(c: World, st: State, i: Input)
    requires SnapshotsOk(c, st)
    ensures var st' := Step(c, st, i); st'.phase.Streaming? ==> RecoveryOk(c, st', st'.phase.w)
  {
    if st.phase.Streaming? { StreamKeeps(c, st, st.phase.w, i); } else { OpenKeeps(c, st, i); }
  }

  /** The stream's output begins with its whole snapshot: every object alive at the version the stream opened at, at its
      state at that version, and nothing else up to there; no snapshot follows the end of the initial events. */
  ghost predicate FullSnapshot(c: World, st: State, w: Watching) {
    var end := w.base + |StateAt(c.h, w.start).Keys|;
    && AllSnapshotted(c.h, st.out, w.base, end, w.start, {})
    && end <= w.cut <= |st.out| && forall j :: w.cut <= j < |st.out| ==> st.out[j].changeType != CTSnapshot
  }

  lemma CompleteIsFull(c: World, st: State, w: Watching)
    requires SnapshotsOk(c, st) && st.phase == Streaming(w) && !w.kind.Plain? && w.s.pending == {}
    ensures FullSnapshot(c, st, w)
  {
  }

  /** A gap closes only when a recovery stream ends whose output began with its full snapshot, before any live change of
      that stream. The version resumed from then is the last one received on it. */
  lemma GapClosesOnlyAfterSnapshots(c: World, inputs: seq<Input>, i: Input)
    ensures var st := Run(c, Init(c), inputs);
            var st' := Step(c, st, i);
            st.gap && !st'.gap && !i.Start? ==>
              && st.phase.Streaming? && !st.phase.w.kind.Plain? && FullSnapshot(c, st, st.phase.w)
              && st'.rv == st.phase.w.seen && st'.rv.Some?
  {
    RunSnapshots(c, inputs);
    var st := Run(c, Init(c), inputs);
    if st.phase.Streaming? {
      GapInStream(c, st, st.phase.w, i);
      if !st.phase.w.kind.Plain? && st.phase.w.s.pending == {} { CompleteIsFull(c, st, st.phase.w); }
    } else if st.gap && !i.Start? {
      GapElsewhere(c, st, i);
    }
  }

  lemma GapInStream(c: World, st: State, w: Watching, i: Input)
    requires st.phase == Streaming(w)
    ensures var st' := StepStreaming(c, st, w, i);
            st'.gap || !st.gap || (w.seen.Some? && st'.rv == w.seen)
  {
  }

  lemma GapElsewhere(c: World, st: State, i: Input)
    requires Control(c, st) && !st.phase.Streaming? && st.gap && !i.Start?
    ensures Step(c, st, i).gap
  {
  }

  /** While a recovery's snapshots are incomplete nothing this Reader does changes the stored bookmark, with whatever
      bookmarks the server mixes in. The step that completes them may, to the stream's version, and only when every object
      alive when it opened has been delivered as a snapshot. */
  lemma InterruptedRecoveryPersistsNothing(c: World, inputs: seq<Input>, i: Input)
    requires !i.Foreign?
    ensures var st := Run(c, Init(c), inputs);
            var st' := Step(c, st, i);
            st.phase.Streaming? && (st.phase.w.initial || st.phase.w.listing) && st'.store != st.store ==>
              && st.phase.w.s.pending == {} && st'.store == Some(st.phase.w.s.pos) && FullSnapshot(c, st, st.phase.w)
  {
    RunSnapshots(c, inputs);
    var st := Run(c, Init(c), inputs);
    if st.phase.Streaming? && (st.phase.w.initial || st.phase.w.listing) {
      StoreDuringRecovery(c, st, i);
      if st.phase.w.s.pending == {} { CompleteIsFull(c, st, st.phase.w); }
    }
  }

  lemma StoreDuringRecovery(c: World, st: State, i: Input)
    requires Control(c, st) && st.phase.Streaming? && (st.phase.w.initial || st.phase.w.listing) && !i.Foreign?
    ensures var st' := Step(c, st, i);
            st'.store == st.store || (st.phase.w.s.pending == {} && st'.store == Some(st.phase.w.s.pos))
  {
  }
}
