/** What the calls on the ConfigMap mean for one resource: its entry, read as the version a Reader keeps there, goes
    through the store updates of the Reader's state machine and nothing else. */
module BookmarkEntries {
  import opened Wrappers
  import opened Protocol
  import opened BookmarkKey
  import opened BookmarkCheck
  import Store = ConfigMapStore

  /** A Reader's call for a resource: Store, or Delete of a version that was rejected. */
  datatype Call = Keep(gvr: GVR, version: nat) | Clear(gvr: GVR, version: nat)

  function OpOf(call: Call): Store.Op {
    match call
    case Keep(gvr, v) => Store.StoreOp(CmKey(gvr), Written(v))
    case Clear(gvr, v) => Store.DeleteOp(CmKey(gvr), Written(v))
  }

  predicate ProperKey(gvr: GVR) {
    '.' !in gvr.version && '.' !in gvr.resource && gvr.group != "core"
  }

  /** The resource's entry is this version. */
  predicate Holds(m: Store.Data, gvr: GVR, stored: Option<nat>) {
    Store.Value(m, CmKey(gvr)) == if stored.None? then None else Some(Written(stored.value))
  }

  /** What a committed call does to the entry of gvr. */
  function Effect(stored: Option<nat>, call: Call, gvr: GVR): Option<nat> {
    if call.gvr != gvr then stored
    else if call.Keep? then Stored(stored, call.version, Done)
    else Cleared(stored, Some(call.version), Done)
  }

  function Effects(stored: Option<nat>, log: seq<Store.Commit>, calls: seq<Call>, gvr: GVR): Option<nat>
    requires forall j :: 0 <= j < |log| ==> log[j].client < |calls|
  {
    if log == [] then stored
    else Effect(Effects(stored, log[..|log| - 1], calls, gvr), calls[log[|log| - 1].client], gvr)
  }

  lemma WrittenInjective(a: nat, b: nat)
    ensures Written(a) == Written(b) <==> a == b
  {
    WrittenDecimal(a);
    WrittenDecimal(b);
  }

  lemma CallEffect(m: Store.Data, gvr: GVR, stored: Option<nat>, call: Call)
    requires ProperKey(gvr) && ProperKey(call.gvr) && Holds(m, gvr, stored)
    ensures Holds(Store.Atomic(m, OpOf(call)).0, gvr, Effect(stored, call, gvr))
  {
    KeysDistinct(gvr, call.gvr);
    if stored.Some? { WrittenInjective(stored.value, call.version); }
  }

  lemma {:induction false} LogEffects(m: Store.Data, log: seq<Store.Commit>, calls: seq<Call>, gvr: GVR, stored: Option<nat>)
    requires forall j :: 0 <= j < |log| ==> log[j].client < |calls| && log[j].op == OpOf(calls[log[j].client])
    requires ProperKey(gvr) && (forall i :: 0 <= i < |calls| ==> ProperKey(calls[i].gvr)) && Holds(m, gvr, stored)
    ensures Holds(Store.Replay(m, log), gvr, Effects(stored, log, calls, gvr))
    decreases |log|
  {
    if log != [] {
      var before := log[..|log| - 1];
      LogEffects(m, before, calls, gvr, stored);
      CallEffect(Store.Replay(m, before), gvr, Effects(stored, before, calls, gvr), calls[log[|log| - 1].client]);
    }
  }

  /** However many Readers share the ConfigMap and however their calls interleave, conflict, fail or commit unseen: the
      entry of each resource is what the state machine's own updates, in the order of their commits, make of it. Calls for
      other resources do not touch it. */
  lemma EntriesFollowProtocol(init: Store.Data, events: seq<Store.Event>, calls: seq<Call>, gvr: GVR, stored: Option<nat>)
    requires var s := Store.Run(init, events);
             |s.clients| == |calls| && forall i :: 0 <= i < |calls| ==> s.clients[i].op == OpOf(calls[i])
    requires ProperKey(gvr) && (forall i :: 0 <= i < |calls| ==> ProperKey(calls[i].gvr)) && Holds(init, gvr, stored)
    ensures var s := Store.Run(init, events);
            && (forall j :: 0 <= j < |s.log| ==> s.log[j].client < |calls|)
            && Holds(s.data, gvr, Effects(stored, s.log, calls, gvr))
  {
    Store.RunOk(init, events);
    LogEffects(init, Store.Run(init, events).log, calls, gvr, stored);
  }

  // ---- one whole call -----------------------------------------------------------------------------------------

  /** What the state machine takes a finished call's reply for: nil, or ErrBookmarkChanged, is Done; an error, or a deletion
      that was told there is no ConfigMap, is Failed, or Unacknowledged when one of the call's updates committed all the
      same. */
  function OutcomeOf(c: Store.Client): Outcome
    requires c.pc.Finished?
  {
    if c.pc.result == Store.Success || c.pc.result == Store.Changed then Done
    else if Store.Lost(c) > 0 then Unacknowledged
    else Outcome.Failed
  }

  /** The state machine's one step for a call. */
  function StoreStep(stored: Option<nat>, call: Call, o: Outcome): Option<nat> {
    match call
    case Keep(_, v) => Stored(stored, v, o)
    case Clear(_, v) => Cleared(stored, Some(v), o)
  }

  predicate LogOf(log: seq<Store.Commit>, calls: seq<Call>) {
    && (forall i :: 0 <= i < |calls| ==> ProperKey(calls[i].gvr))
    && forall j :: 0 <= j < |log| ==> log[j].client < |calls| && log[j].op == OpOf(calls[log[j].client])
  }

  /** Nobody but call i commits to i's entry. */
  predicate Alone(log: seq<Store.Commit>, calls: seq<Call>, i: nat)
    requires i < |calls| && LogOf(log, calls)
  {
    forall j :: 0 <= j < |log| && log[j].client != i ==> calls[log[j].client].gvr != calls[i].gvr
  }

  predicate Commits(log: seq<Store.Commit>, i: nat) {
    exists j :: 0 <= j < |log| && log[j].client == i
  }

  /** However often a call commits alone, its effect is that of committing once. */
  lemma {:induction false} AloneEffects(stored: Option<nat>, log: seq<Store.Commit>, calls: seq<Call>, i: nat)
    requires i < |calls| && LogOf(log, calls) && Alone(log, calls, i)
    ensures Effects(stored, log, calls, calls[i].gvr) == if Commits(log, i) then Effect(stored, calls[i], calls[i].gvr) else stored
    decreases |log|
  {
    if log != [] {
      var n := |log| - 1;
      AloneEffects(stored, log[..n], calls, i);
      assert Commits(log[..n], i) ==> Commits(log, i);
      if Commits(log, i) && log[n].client != i {
        var j :| 0 <= j < |log| && log[j].client == i;
        assert log[..n][j].client == i;
      }
    }
  }

  lemma {:induction false} ReplayConcat(m: Store.Data, a: seq<Store.Commit>, b: seq<Store.Commit>)
    ensures Store.Replay(m, a + b) == Store.Replay(Store.Replay(m, a), b)
    decreases |b|
  {
    if b == [] {
      assert a + b == a;
    } else {
      assert (a + b)[..|a + b| - 1] == a + b[..|b| - 1];
      ReplayConcat(m, a, b[..|b| - 1]);
    }
  }

  /** A stretch of a history in which call i is alone on its entry. */
  lemma Stretch(log: seq<Store.Commit>, calls: seq<Call>, i: nat, begun: nat, p: nat)
    requires begun <= p <= |log| && i < |calls| && LogOf(log, calls) && Alone(log[begun..], calls, i)
    ensures LogOf(log[begun..p], calls) && Alone(log[begun..p], calls, i)
    ensures log[..p] == log[..begun] + log[begun..p]
    ensures Commits(log[begun..p], i) ==> Commits(log[begun..], i)
  {
    var part := log[begun..p];
    forall j | 0 <= j < |part| ensures part[j] == log[begun..][j] { }
  }

  /** The entry at point p of a history in which, from `begun` on, call i is alone on it. */
  lemma EntryAt(init: Store.Data, log: seq<Store.Commit>, calls: seq<Call>, i: nat, begun: nat, p: nat, stored: Option<nat>)
    requires begun <= p <= |log| && i < |calls| && LogOf(log, calls) && Alone(log[begun..], calls, i)
    requires Holds(Store.MapAt(init, log, begun), calls[i].gvr, stored)
    ensures Holds(Store.MapAt(init, log, p), calls[i].gvr,
                  if Commits(log[begun..p], i) then Effect(stored, calls[i], calls[i].gvr) else stored)
  {
    Stretch(log, calls, i, begun, p);
    ReplayConcat(init, log[..begun], log[begun..p]);
    StretchEntry(Store.Replay(init, log[..begun]), log[begun..p], calls, i, stored);
  }

  lemma StretchEntry(m: Store.Data, part: seq<Store.Commit>, calls: seq<Call>, i: nat, stored: Option<nat>)
    requires i < |calls| && LogOf(part, calls) && Alone(part, calls, i) && Holds(m, calls[i].gvr, stored)
    ensures Holds(Store.Replay(m, part), calls[i].gvr, if Commits(part, i) then Effect(stored, calls[i], calls[i].gvr) else stored)
  {
    LogEffects(m, part, calls, calls[i].gvr, stored);
    AloneEffects(stored, part, calls, i);
  }

  /** Call i has finished; no other call has committed to its entry since it began, and the entry was `stored` then. */
  ghost predicate RanAlone(init: Store.Data, s: Store.System, calls: seq<Call>, i: nat, stored: Option<nat>) {
    && |s.clients| == |calls| && i < |calls| && s.clients[i].pc.Finished? && s.clients[i].begun <= |s.log|
    && LogOf(s.log, calls) && s.clients[i].op == OpOf(calls[i])
    && Alone(s.log[s.clients[i].begun..], calls, i)
    && Holds(Store.MapAt(init, s.log, s.clients[i].begun), calls[i].gvr, stored)
  }

  /** A call that returned normally without a commit of its own met an entry that it had nothing to do to. */
  lemma NothingToDo(init: Store.Data, s: Store.System, calls: seq<Call>, i: nat, stored: Option<nat>)
    requires RanAlone(init, s, calls, i, stored) && Store.ClientOk(init, s, i)
    requires !s.clients[i].acknowledged && OutcomeOf(s.clients[i]).Done? && !Commits(s.log[s.clients[i].begun..], i)
    ensures Effect(stored, calls[i], calls[i].gvr) == stored
  {
    var c := s.clients[i];
    Stretch(s.log, calls, i, c.begun, c.point);
    EntryAt(init, s.log, calls, i, c.begun, c.point, stored);
    var m := Store.MapAt(init, s.log, c.point);
    CallEffect(m, calls[i].gvr, stored, calls[i]);
    HoldsOnce(m, calls[i].gvr, stored, Effect(stored, calls[i], calls[i].gvr));
  }

  lemma HoldsOnce(m: Store.Data, gvr: GVR, a: Option<nat>, b: Option<nat>)
    requires Holds(m, gvr, a) && Holds(m, gvr, b)
    ensures a == b
  {
    if a.Some? && b.Some? { WrittenInjective(a.value, b.value); }
  }

  lemma FinishedIsOneStep(init: Store.Data, s: Store.System, calls: seq<Call>, i: nat, stored: Option<nat>)
    requires RanAlone(init, s, calls, i, stored) && Store.ClientOk(init, s, i) && Store.BegunBefore(s)
    ensures Holds(Store.Replay(init, s.log), calls[i].gvr, StoreStep(stored, calls[i], OutcomeOf(s.clients[i])))
  {
    var c := s.clients[i];
    assert s.log[..|s.log|] == s.log;
    EntryAt(init, s.log, calls, i, c.begun, |s.log|, stored);
    assert s.log[c.begun..|s.log|] == s.log[c.begun..];
    OwnCommits(s, i);
    if !Commits(s.log[c.begun..], i) && OutcomeOf(c).Done? { NothingToDo(init, s, calls, i, stored); }
  }

  /** The store's side of the state machine's atomic step: a whole Store or Delete, with all its fetches, conflicts, retries
      and lost replies and with any calls for other resources around it, moves its resource's entry from what it was when
      the call began by the one step for its outcome, if no other call commits to that entry meanwhile. */
  lemma CallIsOneStep(init: Store.Data, events: seq<Store.Event>, calls: seq<Call>, i: nat, stored: Option<nat>)
    requires RanAlone(init, Store.Run(init, events), calls, i, stored)
    ensures var s := Store.Run(init, events);
            Holds(s.data, calls[i].gvr, StoreStep(stored, calls[i], OutcomeOf(s.clients[i])))
  {
    Store.RunOk(init, events);
    Store.RunBegunBefore(init, events);
    var s := Store.Run(init, events);
    assert Store.ClientOk(init, s, i);
    FinishedIsOneStep(init, s, calls, i, stored);
  }

  lemma OwnCommits(s: Store.System, i: nat)
    requires Store.BegunBefore(s) && i < |s.clients| && s.clients[i].begun <= |s.log|
    ensures Commits(s.log[s.clients[i].begun..], i) <==> Store.Commits(s.log, i) > 0
  {
    Store.CommitsPositive(s.log, i);
    var part := s.log[s.clients[i].begun..];
    forall j | 0 <= j < |s.log| && s.log[j].client == i ensures part[j - s.clients[i].begun] == s.log[j] { }
    if Commits(part, i) {
      var j :| 0 <= j < |part| && part[j].client == i;
      assert s.log[j + s.clients[i].begun].client == i;
    }
  }
}
