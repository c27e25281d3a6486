/** Store and Delete of the ConfigMap store as the source writes them: a retry loop that fetches the ConfigMap, changes
    its data in place and sends it back, while other calls go on around it. Each call is proved to take exactly the
    steps ConfigMapStore's clients take, so what is proved of every interleaving there holds of these loops. */
module BookmarkCalls {
  import opened Wrappers
  import opened Requests
  import opened ConfigMapStore
  import opened CallOutcomes

  /** A ConfigMap as fetched: the caller's own copy, with the version it was read at. */
  class ConfigMap {
    var data: Data
    const version: nat

    constructor (data: Data, version: nat)
      ensures this.data == data && this.version == version
    {
      this.data, this.version := data, version;
    }
  }

  /** The reply is one to the client's outstanding request. */
  predicate Applies(c: Client, r: Reply) {
    match r
    case Cancelled => !c.pc.Finished?
    case GetOk => c.pc.Fetching?
    case GetFailed(_) => c.pc.Fetching?
    case _ => c.pc.Updating?
  }

  /** What the call knows of itself; only the updates it gave up on go on without it. */
  predicate SameCall(a: Client, b: Client) {
    a.op == b.op && a.pc == b.pc && a.attempt == b.attempt
  }

  lemma OthersStep(s: System, e: Event, me: nat)
    requires me < |s.clients|
    requires !(e.Answer? && e.client == me && Applies(s.clients[me], e.reply))
    ensures |Step(s, e).clients| >= |s.clients| && SameCall(Step(s, e).clients[me], s.clients[me])
  {
  }

  /** The API server with everything that is going on, of which one call only sees the replies to its own requests. */
  class Cluster {
    ghost const init: Data
    ghost const all: seq<Event>
    var events: seq<Event>
    var sys: System
    ghost var done: seq<Event>

    ghost predicate Traced()
      reads this
    {
      done + events == all && sys == Run(init, done)
    }

    constructor (init: Data, events: seq<Event>)
      ensures Traced() && this.init == init && all == this.events == events && done == []
    {
      this.init, this.events, all, sys, done := init, events, events, System(init, 0, [], []), [];
    }

    /** Let the cluster run until it answers me; None if its events end first. `before` is its state just before. */
    method Reply(me: nat) returns (r: Option<Reply>, before: System)
      requires Traced() && me < |sys.clients|
      modifies this`events, this`sys, this`done
      ensures Traced() && me < |sys.clients| && |events| <= |old(events)|
      ensures r.None? ==> events == []
      ensures r.Some? ==>
                && |events| < |old(events)| && me < |before.clients| && SameCall(before.clients[me], old(sys).clients[me])
                && Applies(before.clients[me], r.value) && sys == Step(before, Event.Answer(me, r.value))
    {
      r, before := None, sys;
      while events != []
        invariant Traced() && me < |sys.clients| && |events| <= |old(events)| && SameCall(sys.clients[me], old(sys).clients[me])
        decreases |events|
      {
        var e := events[0];
        before := sys;
        assert (done + [e])[..|done|] == done && [e] + events[1..] == events;
        sys, done, events := Step(sys, e), done + [e], events[1..];
        if e.Answer? && e.client == me && Applies(before.clients[me], e.reply) {
          return Some(e.reply), before;
        }
        OthersStep(before, e, me);
      }
    }
  }

  /** The call's own variables are those of its client in the cluster. */
  predicate AtAttempt(c: Client, op: Op, attempt: nat) {
    c.op == op && c.pc == Fetching && c.attempt == attempt
  }

  /** retryAPIServer's rule after a failed attempt. */
  method NextAttempt(attempt: nat, e: ApiError) returns (next: Option<nat>)
    ensures next == if Hopeless(e) || attempt >= 5 then None else Some(attempt + 1)
    ensures forall c: Client :: c.attempt == attempt && !c.pc.Finished? ==>
              Retried(c, e) == if next.Some? then c.(pc := Fetching, attempt := next.value) else c.(pc := Finished(Failure))
  {
    next := if Permanent(e) || attempt >= MAX_ATTEMPTS then None else Some(attempt + 1);
  }

  /** How one attempt went: the call returns, tries again, or the cluster's events end before it is answered. */
  datatype Attempt = Ended(result: StoreResult) | Again(attempt: nat) | Unanswered

  ghost predicate Keeps(w: Cluster, me: nat, op: Op, a: Attempt)
    reads w
  {
    && w.Traced() && me < |w.sys.clients|
    && match a
       case Ended(r) => w.sys.clients[me].pc == Finished(r)
       case Again(n) => AtAttempt(w.sys.clients[me], op, n)
       case Unanswered => w.events == []
  }

  /** A call that returns an error was cancelled, met a hopeless error, or failed five times. */
  ghost predicate FailsWithCause(w: Cluster, me: nat, a: Attempt)
    reads w
  {
    a == Ended(Failure) ==> EndedByEvent(w.init, w.done, me) || FailedAttempts(w.init, w.done, me) == 5
  }

  lemma FailedForCause(w: Cluster, me: nat, op: Op, a: Attempt)
    requires Keeps(w, me, op, a)
    ensures FailsWithCause(w, me, a)
  {
    if a == Ended(Failure) { FailureHasCause(w.init, w.done, me); }
  }

  method Failed(attempt: nat, e: ApiError) returns (a: Attempt)
    ensures a == if Hopeless(e) || attempt >= 5 then Ended(Failure) else Again(attempt + 1)
    ensures forall c: Client :: c.attempt == attempt && !c.pc.Finished? ==>
              Retried(c, e) == if a.Again? then c.(pc := Fetching, attempt := a.attempt) else c.(pc := Finished(Failure))
  {
    var again := NextAttempt(attempt, e);
    a := if again.Some? then Again(again.value) else Ended(Failure);
  }

  /** Update: send the changed copy back; it is accepted only if it is based on the current version. */
  method SendUpdate(w: Cluster, me: nat, op: Op, configMap: ConfigMap, attempt: nat) returns (a: Attempt)
    requires w.Traced() && me < |w.sys.clients| && w.sys.clients[me].op == op
    requires w.sys.clients[me].pc == Updating(configMap.data, configMap.version) && w.sys.clients[me].attempt == attempt
    modifies w`events, w`sys, w`done
    ensures Keeps(w, me, op, a) && |w.events| <= |old(w.events)|
  {
    var reply, before := w.Reply(me);
    if reply.None? { return Unanswered; }
    match reply.value {
      case UpdateOk => if configMap.version == before.version { a := Ended(Success); } else { a := Failed(attempt, Conflict); }
      case UpdateUnclear(e) => a := Failed(attempt, e);
      case UpdateFailed(e) => a := Failed(attempt, e);
      case _ => a := Ended(Failure);
    }
  }

  /** One attempt of Store: put value under key in the fetched copy, in place, and send it back; nothing is sent when it is
      there. */
  method StoreOnce(w: Cluster, me: nat, key: string, value: string, attempt: nat) returns (a: Attempt)
    requires w.Traced() && me < |w.sys.clients| && AtAttempt(w.sys.clients[me], StoreOp(key, value), attempt)
    modifies w`events, w`sys, w`done
    ensures Keeps(w, me, StoreOp(key, value), a) && |w.events| <= |old(w.events)| && (a.Again? ==> |w.events| < |old(w.events)|)
  {
    var reply, before := w.Reply(me);
    if reply.None? { return Unanswered; }
    match reply.value {
      case GetOk =>
        var configMap := new ConfigMap(before.data, before.version);
        if key in configMap.data && configMap.data[key] == value {
          a := Ended(Success);
        } else {
          configMap.data := configMap.data[key := value];
          a := SendUpdate(w, me, StoreOp(key, value), configMap, attempt);
        }
      case GetFailed(e) => a := Failed(attempt, e);
      case _ => a := Ended(Failure);
    }
  }

  /** Store: attempts until one succeeds or no other may follow. */
  method Store(w: Cluster, me: nat, key: string, value: string) returns (a: Attempt)
    requires w.Traced() && me < |w.sys.clients| && AtAttempt(w.sys.clients[me], StoreOp(key, value), 1)
    modifies w`events, w`sys, w`done
    ensures Keeps(w, me, StoreOp(key, value), a) && !a.Again? && FailsWithCause(w, me, a)
  {
    a := Again(1);
    while a.Again?
      invariant Keeps(w, me, StoreOp(key, value), a)
      decreases |w.events|, a.Again?
    {
      a := StoreOnce(w, me, key, value, a.attempt);
    }
    FailedForCause(w, me, StoreOp(key, value), a);
  }

  /** One attempt of Delete: remove key from the fetched copy, in place, if it still has this value, and send it back. */
  method DeleteOnce(w: Cluster, me: nat, key: string, value: string, attempt: nat) returns (a: Attempt)
    requires w.Traced() && me < |w.sys.clients| && AtAttempt(w.sys.clients[me], DeleteOp(key, value), attempt)
    modifies w`events, w`sys, w`done
    ensures Keeps(w, me, DeleteOp(key, value), a) && |w.events| <= |old(w.events)| && (a.Again? ==> |w.events| < |old(w.events)|)
  {
    var reply, before := w.Reply(me);
    if reply.None? { return Unanswered; }
    match reply.value {
      case GetOk =>
        var configMap := new ConfigMap(before.data, before.version);
        if key !in configMap.data {
          a := Ended(Success);
        } else if configMap.data[key] != value {
          a := Ended(Changed);
        } else {
          configMap.data := configMap.data - {key};
          a := SendUpdate(w, me, DeleteOp(key, value), configMap, attempt);
        }
      case GetFailed(e) => if e.NotFound? { a := Ended(NoConfigMap); } else { a := Failed(attempt, e); }
      case _ => a := Ended(Failure);
    }
  }

  /** Delete: likewise. */
  method Delete(w: Cluster, me: nat, key: string, value: string) returns (a: Attempt)
    requires w.Traced() && me < |w.sys.clients| && AtAttempt(w.sys.clients[me], DeleteOp(key, value), 1)
    modifies w`events, w`sys, w`done
    ensures Keeps(w, me, DeleteOp(key, value), a) && !a.Again? && FailsWithCause(w, me, a)
  {
    a := Again(1);
    while a.Again?
      invariant Keeps(w, me, DeleteOp(key, value), a)
      decreases |w.events|, a.Again?
    {
      a := DeleteOnce(w, me, key, value, a.attempt);
    }
    FailedForCause(w, me, DeleteOp(key, value), a);
  }
}
