/** The bookmark store in a ConfigMap: optimistic get, modify, update with retries, by any number of writers at once. It
    refines an atomic map with put and compare-and-delete. */
module ConfigMapStore {
  import opened Wrappers
  import opened Requests

  type Data = map<string, string>

  /** One call of Store or Delete, for the key of a resource and a version. */
  datatype Op = StoreOp(key: string, value: string) | DeleteOp(key: string, value: string)

  /** What a call returned: Success is nil, Changed is ErrBookmarkChanged, NoConfigMap is Delete's nil for a ConfigMap that
      does not exist. */
  datatype StoreResult = Success | Changed | NoConfigMap | Failure

  // ---- the map it refines -------------------------------------------------------------------------------------

  /** The atomic operation, and what it reports. */
  function Atomic(m: Data, op: Op): (Data, StoreResult) {
    match op
    case StoreOp(k, v) => (m[k := v], Success)
    case DeleteOp(k, v) => if k !in m then (m, Success) else if m[k] == v then (m - {k}, Success) else (m, Changed)
  }

  /** One committed update, by the given call. */
  datatype Commit = Commit(client: nat, op: Op)

  /** The map after a history of atomic operations. */
  function Replay(m: Data, log: seq<Commit>): Data {
    if log == [] then m else Atomic(Replay(m, log[..|log| - 1]), log[|log| - 1].op).0
  }

  lemma ReplaySnoc(m: Data, log: seq<Commit>, c: Commit)
    ensures Replay(m, log + [c]) == Atomic(Replay(m, log), c.op).0
  {
    assert (log + [c])[..|log|] == log;
  }

  /** The map at point p of a history. */
  function MapAt(m: Data, log: seq<Commit>, p: nat): Data {
    Replay(m, if p <= |log| then log[..p] else log)
  }

  lemma MapAtSnoc(m: Data, log: seq<Commit>, c: Commit, p: nat)
    requires p <= |log|
    ensures MapAt(m, log + [c], p) == MapAt(m, log, p)
  {
    assert (log + [c])[..p] == log[..p];
  }

  function Value(m: Data, k: string): Option<string> {
    if k in m then Some(m[k]) else None
  }

  /** A key nobody operated on keeps its value. */
  lemma {:induction false} OtherKeysKept(m: Data, log: seq<Commit>, k: string)
    requires forall i :: 0 <= i < |log| ==> log[i].op.key != k
    ensures Value(Replay(m, log), k) == Value(m, k)
    decreases |log|
  {
    if log != [] {
      OtherKeysKept(m, log[..|log| - 1], k);
    }
  }

  // ---- one call -----------------------------------------------------------------------------------------------

  const MAX_ATTEMPTS := 5

  /** What a call does with the data it has fetched: return, or send the data changed like this. */
  datatype Decision = Return(result: StoreResult) | Write(data: Data)

  function Decide(op: Op, fetched: Data): Decision {
    match op
    case StoreOp(k, v) => if Value(fetched, k) == Some(v) then Return(Success) else Write(fetched[k := v])
    case DeleteOp(k, v) =>
      if k !in fetched then Return(Success)
      else if fetched[k] != v then Return(Changed)
      else Write(fetched - {k})
  }

  /** The decision is the atomic operation on the fetched data, and only a change is written. */
  lemma DecideIsAtomic(op: Op, fetched: Data)
    ensures match Decide(op, fetched)
            case Return(r) => Atomic(fetched, op) == (fetched, r)
            case Write(data) => Atomic(fetched, op) == (data, Success) && data != fetched
  {
    if op.StoreOp? && Value(fetched, op.key) == Some(op.value) {
      assert fetched[op.key := op.value] == fetched;
    }
    match Decide(op, fetched) {
      case Write(data) => assert Value(data, op.key) != Value(fetched, op.key);
      case _ =>
    }
  }

  /** Where a call stands. `version` is the ConfigMap version the data to write is based on. */
  datatype Pc = Fetching | Updating(data: Data, version: nat) | Finished(result: StoreResult)

  /** An update whose client was told of an error: it is still on its way, or has committed. */
  datatype Flight = Flight(data: Data, version: nat, landed: bool)

  /** A call in progress: its attempt, the length of the history when it began, the updates it gave up on, and, for the
      proof, the point of the history it acted at and whether its own commit was acknowledged. */
  datatype Client = Client(op: Op, pc: Pc, attempt: nat, begun: nat, point: nat, acknowledged: bool, flights: seq<Flight>)

  function Landed(flights: seq<Flight>): nat {
    if flights == [] then 0 else Landed(flights[..|flights| - 1]) + if flights[|flights| - 1].landed then 1 else 0
  }

  /** How many of its commits a call was told were errors. */
  function Lost(c: Client): nat {
    Landed(c.flights)
  }

  /** The API server's replies to a client's outstanding request. After UpdateUnclear the update may have committed, or may
      yet, however much later; after UpdateFailed it never does. */
  datatype Reply = GetOk | GetFailed(error: ApiError) | UpdateOk | UpdateUnclear(error: ApiError) | UpdateFailed(error: ApiError) | Cancelled

  /** Land: the k-th update that the client gave up on reaches the ConfigMap. */
  datatype Event = Begin(op: Op) | Answer(client: nat, reply: Reply) | Land(client: nat, k: nat)

  datatype System = System(data: Data, version: nat, log: seq<Commit>, clients: seq<Client>)

  /** retryAPIServer: another attempt, unless the error is permanent or the attempts are used up. */
  function Retried(c: Client, e: ApiError): Client {
    if Permanent(e) || c.attempt >= MAX_ATTEMPTS then c.(pc := Finished(Failure))
    else c.(pc := Fetching, attempt := c.attempt + 1)
  }

  function Fetched(s: System, c: Client): Client {
    match Decide(c.op, s.data)
    case Return(r) => c.(pc := Finished(r), point := |s.log|)
    case Write(data) => c.(pc := Updating(data, s.version))
  }

  function SetClient(s: System, i: nat, c: Client): System
    requires i < |s.clients|
  {
    s.(clients := s.clients[i := c])
  }

  function Step(s: System, e: Event): System {
    match e
    case Land(i, k) => if i < |s.clients| && k < |s.clients[i].flights| then LandUpdate(s, i, k) else s
    case Begin(op) => s.(clients := s.clients + [Client(op, Fetching, 1, |s.log|, |s.log|, false, [])])
    case Answer(i, reply) =>
      if i >= |s.clients| || s.clients[i].pc.Finished? then s
      else
        var c := s.clients[i];
        match reply
        case Cancelled => SetClient(s, i, c.(pc := Finished(Failure)))
        case GetOk => if c.pc.Fetching? then SetClient(s, i, Fetched(s, c)) else s
        case GetFailed(e) =>
          if !c.pc.Fetching? then s
          else if c.op.DeleteOp? && e.NotFound? then SetClient(s, i, c.(pc := Finished(NoConfigMap)))
          else SetClient(s, i, Retried(c, e))
        case UpdateFailed(e) => if c.pc.Updating? then SetClient(s, i, Retried(c, e)) else s
        case UpdateOk => Update(s, i)
        case UpdateUnclear(e) => if c.pc.Updating? then SetClient(s, i, GivenUp(c, e)) else s
  }

  /** The conflict check: an update based on any but the current version is refused, and changes nothing. */
  function Update(s: System, i: nat): System
    requires i < |s.clients|
  {
    var c := s.clients[i];
    if !c.pc.Updating? then s
    else if c.pc.version != s.version then SetClient(s, i, Retried(c, Conflict))
    else Committed(s, i, c.pc.data, c.(pc := Finished(Success), point := |s.log|, acknowledged := true))
  }

  function Committed(s: System, i: nat, data: Data, c': Client): System
    requires i < |s.clients|
  {
    SetClient(s.(data := data, version := s.version + 1, log := s.log + [Commit(i, s.clients[i].op)]), i, c')
  }

  /** The client takes the error for a failure; its update is on its way. */
  function GivenUp(c: Client, e: ApiError): Client
    requires c.pc.Updating?
  {
    Retried(c, e).(flights := c.flights + [Flight(c.pc.data, c.pc.version, false)])
  }

  /** The same conflict check, whatever the client does by then. */
  function LandUpdate(s: System, i: nat, k: nat): System
    requires i < |s.clients| && k < |s.clients[i].flights|
  {
    var c := s.clients[i];
    if c.flights[k].version != s.version then s
    else Committed(s, i, c.flights[k].data, c.(flights := c.flights[k := c.flights[k].(landed := true)]))
  }

  function Run(init: Data, events: seq<Event>): System {
    if events == [] then System(init, 0, [], []) else Step(Run(init, events[..|events| - 1]), events[|events| - 1])
  }

  // ---- refinement ---------------------------------------------------------------------------------------------

  /** How often client i has committed. */
  function Commits(log: seq<Commit>, i: nat): nat {
    if log == [] then 0 else Commits(log[..|log| - 1], i) + if log[|log| - 1].client == i then 1 else 0
  }

  lemma CommitsSnoc(log: seq<Commit>, c: Commit, i: nat)
    ensures Commits(log + [c], i) == Commits(log, i) + if c.client == i then 1 else 0
  {
    assert (log + [c])[..|log|] == log;
  }

  /** What is known of a call. While it holds data based on the current version, that data is the current data with the
      call's own operation applied. Once it has returned normally, it is as if its operation had happened atomically at
      one point of the history between its beginning and its return: at its own acknowledged commit, or, when it was
      acknowledged nothing, where the operation changes nothing. */
  ghost predicate ClientOk(init: Data, s: System, i: nat)
    requires i < |s.clients|
  {
    var c := s.clients[i];
    && c.begun <= |s.log| && 1 <= c.attempt <= MAX_ATTEMPTS
    && Commits(s.log, i) == Lost(c) + (if c.acknowledged then 1 else 0)
    && (c.acknowledged ==> c.pc == Finished(Success))
    && |c.flights| <= c.attempt && (!c.pc.Finished? ==> |c.flights| < c.attempt)
    && (forall k :: 0 <= k < |c.flights| ==> FlightOk(s, c.op, c.flights[k]))
    && (c.pc == Finished(Success) || c.pc == Finished(Changed) ==> Over(s, c))
    && match c.pc
       case Fetching => true
       case Updating(data, version) =>
         version <= s.version && (version == s.version ==> Decide(c.op, s.data) == Write(data))
       case Finished(r) =>
         r == Success || r == Changed ==>
           && c.begun <= c.point <= |s.log|
           && Atomic(MapAt(init, s.log, c.point), c.op).1 == r
           && if c.acknowledged then c.point < |s.log| && s.log[c.point] == Commit(i, c.op)
              else Atomic(MapAt(init, s.log, c.point), c.op).0 == MapAt(init, s.log, c.point)
  }

  /** An update on its way that could still land would do the call's own operation. */
  predicate FlightOk(s: System, op: Op, f: Flight) {
    f.version <= s.version && (f.version == s.version ==> !f.landed && Decide(op, s.data) == Write(f.data))
  }

  /** No update of the call can land any more. */
  predicate Over(s: System, c: Client) {
    forall k :: 0 <= k < |c.flights| ==> c.flights[k].version < s.version
  }

  ghost predicate SystemOk(init: Data, s: System) {
    && s.data == Replay(init, s.log)
    && (forall j :: 0 <= j < |s.log| ==> s.log[j].client < |s.clients| && s.log[j].op == s.clients[s.log[j].client].op)
    && (forall j :: 0 <= j < |s.log| ==> Changes(init, s.log, j))
    && (forall i :: 0 <= i < |s.clients| ==> ClientOk(init, s, i))
  }

  /** The j-th commit changed the map; for a deletion, it deleted the value it names. */
  ghost predicate Changes(init: Data, log: seq<Commit>, j: nat)
    requires j < |log|
  {
    Atomic(MapAt(init, log, j), log[j].op).0 != MapAt(init, log, j)
  }

  /** Another client's step, without a commit, leaves what is known of a call. */
  lemma OthersKept(init: Data, s: System, i: nat, c': Client)
    requires SystemOk(init, s) && i < |s.clients| && c'.op == s.clients[i].op
    requires ClientOk(init, SetClient(s, i, c'), i)
    ensures SystemOk(init, SetClient(s, i, c'))
  {
    var s' := SetClient(s, i, c');
    forall k | 0 <= k < |s'.clients| ensures ClientOk(init, s', k) {
      if k != i { assert ClientOk(init, s, k); }
    }
  }

  /** A commit: data based on older versions stays unusable, and the calls that have returned keep their point. */
  lemma CommitKept(init: Data, s: System, s': System, i: nat, k: nat)
    requires SystemOk(init, s) && i < |s.clients| && k < |s.clients| && k != i
    requires s'.log == s.log + [Commit(i, s.clients[i].op)] && s'.version == s.version + 1
    requires |s'.clients| == |s.clients| && s'.clients[k] == s.clients[k]
    ensures ClientOk(init, s', k)
  {
    assert ClientOk(init, s, k);
    CommitsSnoc(s.log, Commit(i, s.clients[i].op), k);
    var c := s.clients[k];
    if c.point <= |s.log| { MapAtSnoc(init, s.log, Commit(i, s.clients[i].op), c.point); }
  }

  lemma CommitChanges(init: Data, s: System, c: Commit)
    requires SystemOk(init, s) && Atomic(s.data, c.op).0 != s.data
    ensures MapAt(init, s.log + [c], |s.log|) == s.data
    ensures forall j :: 0 <= j < |s.log + [c]| ==> Changes(init, s.log + [c], j)
  {
    assert s.log[..|s.log|] == s.log;
    MapAtSnoc(init, s.log, c, |s.log|);
    forall j | 0 <= j < |s.log + [c]| ensures Changes(init, s.log + [c], j) {
      MapAtSnoc(init, s.log, c, j);
      if j < |s.log| { assert Changes(init, s.log, j); }
    }
  }

  lemma {:induction false} LandedBound(flights: seq<Flight>)
    ensures Landed(flights) <= |flights|
    decreases |flights|
  {
    if flights != [] { LandedBound(flights[..|flights| - 1]); }
  }

  lemma LandedSnoc(flights: seq<Flight>, f: Flight)
    ensures Landed(flights + [f]) == Landed(flights) + if f.landed then 1 else 0
  {
    assert (flights + [f])[..|flights|] == flights;
  }

  lemma {:induction false} LandedOnce(flights: seq<Flight>, k: nat)
    requires k < |flights| && !flights[k].landed
    ensures Landed(flights[k := flights[k].(landed := true)]) == Landed(flights) + 1
    decreases |flights|
  {
    var n, after := |flights| - 1, flights[k := flights[k].(landed := true)];
    if k == n {
      assert after[..n] == flights[..n];
    } else {
      assert after[..n] == flights[..n][k := flights[k].(landed := true)];
      LandedOnce(flights[..n], k);
    }
  }

  /** A commit of client i's operation on the current data, which leaves i's part of the invariant. */
  lemma CommitOk(init: Data, s: System, i: nat, data: Data, c': Client)
    requires SystemOk(init, s) && i < |s.clients| && c'.op == s.clients[i].op && Decide(c'.op, s.data) == Write(data)
    requires ClientOk(init, Committed(s, i, data, c'), i)
    ensures SystemOk(init, Committed(s, i, data, c'))
  {
    var op, s' := c'.op, Committed(s, i, data, c');
    ReplaySnoc(init, s.log, Commit(i, op));
    DecideIsAtomic(op, s.data);
    CommitChanges(init, s, Commit(i, op));
    forall k | 0 <= k < |s'.clients| ensures ClientOk(init, s', k) {
      if k != i { CommitKept(init, s, s', i, k); }
    }
  }

  lemma CommitterKept(init: Data, s: System, i: nat)
    requires SystemOk(init, s) && i < |s.clients| && s.clients[i].pc.Updating? && s.clients[i].pc.version == s.version
    ensures ClientOk(init, Update(s, i), i) && Decide(s.clients[i].op, s.data) == Write(s.clients[i].pc.data)
  {
    assert ClientOk(init, s, i);
    DecideIsAtomic(s.clients[i].op, s.data);
    CommitsSnoc(s.log, Commit(i, s.clients[i].op), i);
    CommitChanges(init, s, Commit(i, s.clients[i].op));
  }

  lemma UpdateOkStep(init: Data, s: System, i: nat)
    requires SystemOk(init, s) && i < |s.clients|
    ensures SystemOk(init, Update(s, i))
  {
    var c := s.clients[i];
    if c.pc.Updating? {
      if c.pc.version == s.version {
        CommitterKept(init, s, i);
        CommitOk(init, s, i, c.pc.data, c.(pc := Finished(Success), point := |s.log|, acknowledged := true));
      } else {
        assert ClientOk(init, s, i);
        OthersKept(init, s, i, Retried(c, Conflict));
      }
    }
  }

  lemma GivenUpOk(init: Data, s: System, i: nat, e: ApiError)
    requires SystemOk(init, s) && i < |s.clients| && s.clients[i].pc.Updating?
    ensures SystemOk(init, SetClient(s, i, GivenUp(s.clients[i], e)))
  {
    var c := s.clients[i];
    assert ClientOk(init, s, i);
    LandedSnoc(c.flights, Flight(c.pc.data, c.pc.version, false));
    OthersKept(init, s, i, GivenUp(c, e));
  }

  lemma LanderKept(init: Data, s: System, i: nat, k: nat)
    requires SystemOk(init, s) && i < |s.clients| && k < |s.clients[i].flights| && s.clients[i].flights[k].version == s.version
    ensures ClientOk(init, LandUpdate(s, i, k), i) && Decide(s.clients[i].op, s.data) == Write(s.clients[i].flights[k].data)
  {
    var c := s.clients[i];
    assert ClientOk(init, s, i) && FlightOk(s, c.op, c.flights[k]);
    LandedOnce(c.flights, k);
    CommitsSnoc(s.log, Commit(i, c.op), i);
  }

  lemma LandOk(init: Data, s: System, i: nat, k: nat)
    requires SystemOk(init, s) && i < |s.clients| && k < |s.clients[i].flights|
    ensures SystemOk(init, LandUpdate(s, i, k))
  {
    var c := s.clients[i];
    if c.flights[k].version == s.version {
      LanderKept(init, s, i, k);
      CommitOk(init, s, i, c.flights[k].data, c.(flights := c.flights[k := c.flights[k].(landed := true)]));
    }
  }

  lemma StepOk(init: Data, s: System, e: Event)
    requires SystemOk(init, s)
    ensures SystemOk(init, Step(s, e))
  {
    match e {
      case Begin(op) => BeginOk(init, s, op);
      case Land(i, k) => if i < |s.clients| && k < |s.clients[i].flights| { LandOk(init, s, i, k); }
      case Answer(i, reply) =>
        if i < |s.clients| && !s.clients[i].pc.Finished? {
          if s.clients[i].pc.Fetching? { FetchingOk(init, s, i, reply); } else { UpdatingOk(init, s, i, reply); }
        }
    }
  }

  lemma FetchingOk(init: Data, s: System, i: nat, reply: Reply)
    requires SystemOk(init, s) && i < |s.clients| && s.clients[i].pc.Fetching?
    ensures SystemOk(init, Step(s, Answer(i, reply)))
  {
    var c := s.clients[i];
    assert ClientOk(init, s, i);
    match reply {
      case Cancelled => OthersKept(init, s, i, c.(pc := Finished(Failure)));
      case GetOk => FetchOk(init, s, i);
      case GetFailed(e) =>
        OthersKept(init, s, i, if c.op.DeleteOp? && e.NotFound? then c.(pc := Finished(NoConfigMap)) else Retried(c, e));
      case _ =>
    }
  }

  lemma UpdatingOk(init: Data, s: System, i: nat, reply: Reply)
    requires SystemOk(init, s) && i < |s.clients| && s.clients[i].pc.Updating?
    ensures SystemOk(init, Step(s, Answer(i, reply)))
  {
    var c := s.clients[i];
    assert ClientOk(init, s, i);
    match reply {
      case Cancelled => OthersKept(init, s, i, c.(pc := Finished(Failure)));
      case UpdateFailed(e) => OthersKept(init, s, i, Retried(c, e));
      case UpdateOk => UpdateOkStep(init, s, i);
      case UpdateUnclear(e) => GivenUpOk(init, s, i, e);
      case _ =>
    }
  }

  lemma FetchOk(init: Data, s: System, i: nat)
    requires SystemOk(init, s) && i < |s.clients| && s.clients[i].pc.Fetching?
    ensures SystemOk(init, SetClient(s, i, Fetched(s, s.clients[i])))
  {
    assert ClientOk(init, s, i);
    DecideIsAtomic(s.clients[i].op, s.data);
    assert s.log[..|s.log|] == s.log;
    OthersKept(init, s, i, Fetched(s, s.clients[i]));
  }

  lemma BeginOk(init: Data, s: System, op: Op)
    requires SystemOk(init, s)
    ensures SystemOk(init, Step(s, Begin(op)))
  {
    var s' := Step(s, Begin(op));
    NoCommits(s.log, |s.clients|);
    forall k | 0 <= k < |s'.clients| ensures ClientOk(init, s', k) {
      if k < |s.clients| { assert ClientOk(init, s, k); }
    }
  }

  lemma {:induction false} NoCommits(log: seq<Commit>, i: nat)
    requires forall j :: 0 <= j < |log| ==> log[j].client < i
    ensures Commits(log, i) == 0
    decreases |log|
  {
    if log != [] { NoCommits(log[..|log| - 1], i); }
  }

  lemma {:induction false} RunOk(init: Data, events: seq<Event>)
    ensures SystemOk(init, Run(init, events))
    decreases |events|
  {
    if events != [] {
      RunOk(init, events[..|events| - 1]);
      StepOk(init, Run(init, events[..|events| - 1]), events[|events| - 1]);
    }
  }

  lemma {:induction false} CommitsPositive(log: seq<Commit>, i: nat)
    ensures Commits(log, i) > 0 <==> exists j :: 0 <= j < |log| && log[j].client == i
    decreases |log|
  {
    if log != [] {
      var n := |log| - 1;
      CommitsPositive(log[..n], i);
      if Commits(log[..n], i) > 0 {
        var j :| 0 <= j < n && log[..n][j].client == i;
        assert log[j].client == i;
      }
      if exists j :: 0 <= j < |log| && log[j].client == i {
        var j :| 0 <= j < |log| && log[j].client == i;
        assert j < n ==> log[..n][j].client == i;
      }
    }
  }

  /** A call commits only after its beginning. */
  ghost predicate BegunBefore(s: System) {
    forall j :: 0 <= j < |s.log| ==> s.log[j].client < |s.clients| && s.clients[s.log[j].client].begun <= j
  }

  lemma StepBegunBefore(init: Data, s: System, e: Event)
    requires SystemOk(init, s) && BegunBefore(s)
    ensures BegunBefore(Step(s, e))
  {
    if !e.Begin? && e.client < |s.clients| { assert ClientOk(init, s, e.client); }
  }

  lemma {:induction false} RunBegunBefore(init: Data, events: seq<Event>)
    ensures BegunBefore(Run(init, events))
    decreases |events|
  {
    if events != [] {
      var before := events[..|events| - 1];
      RunBegunBefore(init, before);
      RunOk(init, before);
      StepBegunBefore(init, Run(init, before), events[|events| - 1]);
    }
  }

  /** For any interleaving of any number of calls, with conflicts, retries and commits that are reported as errors: the
      ConfigMap holds what its history of single-key puts and compare-and-deletes makes of the initial data, each of
      them one of the calls' own operations; so no key changes but by a call for that key. */
  lemma HistoryIsAtomic(init: Data, events: seq<Event>, k: string)
    ensures var s := Run(init, events);
            && s.data == Replay(init, s.log)
            && (forall j :: 0 <= j < |s.log| ==> s.log[j].client < |s.clients| && s.log[j].op == s.clients[s.log[j].client].op)
            && ((forall i :: 0 <= i < |s.clients| ==> s.clients[i].op.key != k) ==> Value(s.data, k) == Value(init, k))
  {
    RunOk(init, events);
    var s := Run(init, events);
    if forall i :: 0 <= i < |s.clients| ==> s.clients[i].op.key != k {
      OtherKeysKept(init, s.log, k);
    }
  }

  /** A call that returned normally took effect like the atomic operation, at one point of the history within the call,
      and reported what that operation reports there. It committed at most once more than it had commits reported as
      errors: without those, exactly once if it changed anything at its point and otherwise not at all. */
  lemma CallsLinearize(init: Data, events: seq<Event>, i: nat)
    requires i < |Run(init, events).clients|
    requires var pc := Run(init, events).clients[i].pc; pc == Finished(Success) || pc == Finished(Changed)
    ensures var s := Run(init, events);
            var c := s.clients[i];
            && c.begun <= c.point <= |s.log|
            && Atomic(MapAt(init, s.log, c.point), c.op).1 == c.pc.result
            && (if c.acknowledged then c.point < |s.log| && s.log[c.point] == Commit(i, c.op)
                else Atomic(MapAt(init, s.log, c.point), c.op).0 == MapAt(init, s.log, c.point))
            && Commits(s.log, i) == Lost(c) + (if c.acknowledged then 1 else 0)
            && Lost(c) <= 5
  {
    RunOk(init, events);
    assert ClientOk(init, Run(init, events), i);
    LandedBound(Run(init, events).clients[i].flights);
  }

  /** And it is over: no update that it gave up on on the way commits after its return, whatever happens. A call that
      returned an error promises less: an update of its last attempts may land later, as long as nobody else commits. */
  lemma ReturnedCallsAreOver(init: Data, events: seq<Event>, more: seq<Event>, i: nat)
    requires i < |Run(init, events).clients|
    requires var pc := Run(init, events).clients[i].pc; pc == Finished(Success) || pc == Finished(Changed)
    ensures var s, s' := Run(init, events), Run(init, events + more);
            i < |s'.clients| && s'.clients[i] == s.clients[i] && Commits(s'.log, i) == Commits(s.log, i)
    decreases |more|
  {
    if more == [] {
      assert events + more == events;
    } else {
      var before, e := more[..|more| - 1], more[|more| - 1];
      ReturnedCallsAreOver(init, events, before, i);
      assert (events + more)[..|events + more| - 1] == events + before;
      RunOk(init, events + before);
      OverStep(init, Run(init, events + before), e, i);
    }
  }

  /** An answer to a client adds at most a commit of its own, and changes no other client. */
  lemma AnswerForms(s: System, j: nat, reply: Reply)
    ensures var s' := Step(s, Answer(j, reply));
            && (s'.log == s.log || (j < |s.clients| && !s.clients[j].pc.Finished? && s'.log == s.log + [Commit(j, s.clients[j].op)]))
            && |s'.clients| == |s.clients|
            && forall i :: 0 <= i < |s.clients| && (i != j || s.clients[i].pc.Finished?) ==> s'.clients[i] == s.clients[i]
  {
  }

  lemma OverAnswer(init: Data, s: System, j: nat, reply: Reply, i: nat)
    requires i < |s.clients| && s.clients[i].pc.Finished?
    ensures var s' := Step(s, Answer(j, reply)); i < |s'.clients| && s'.clients[i] == s.clients[i] && Commits(s'.log, i) == Commits(s.log, i)
  {
    AnswerForms(s, j, reply);
    if j < |s.clients| { CommitsSnoc(s.log, Commit(j, s.clients[j].op), i); }
  }

  lemma OverLand(init: Data, s: System, j: nat, k: nat, i: nat)
    requires SystemOk(init, s) && i < |s.clients| && (s.clients[i].pc == Finished(Success) || s.clients[i].pc == Finished(Changed))
    ensures var s' := Step(s, Land(j, k)); i < |s'.clients| && s'.clients[i] == s.clients[i] && Commits(s'.log, i) == Commits(s.log, i)
  {
    assert ClientOk(init, s, i);
    if j < |s.clients| { CommitsSnoc(s.log, Commit(j, s.clients[j].op), i); }
  }

  lemma OverStep(init: Data, s: System, e: Event, i: nat)
    requires SystemOk(init, s) && i < |s.clients| && (s.clients[i].pc == Finished(Success) || s.clients[i].pc == Finished(Changed))
    ensures var s' := Step(s, e); i < |s'.clients| && s'.clients[i] == s.clients[i] && Commits(s'.log, i) == Commits(s.log, i)
  {
    match e {
      case Begin(_) =>
      case Answer(j, reply) => OverAnswer(init, s, j, reply, i);
      case Land(j, k) => OverLand(init, s, j, k, i);
    }
  }

  /** A committed deletion removed the value it names and no other; a deletion that reports Changed met another value at
      its point, and one that reports success without a commit of its own found the key gone. */
  lemma DeletionsSpareReplacements(init: Data, events: seq<Event>, j: nat, i: nat)
    ensures var s := Run(init, events);
            j < |s.log| && s.log[j].op.DeleteOp? ==>
              Value(MapAt(init, s.log, j), s.log[j].op.key) == Some(s.log[j].op.value)
    ensures var s := Run(init, events);
            i < |s.clients| && s.clients[i].op.DeleteOp? ==>
              var c := s.clients[i];
              var met := Value(MapAt(init, s.log, c.point), c.op.key);
              && (c.pc == Finished(Changed) ==> met != None && met != Some(c.op.value))
              && (c.pc == Finished(Success) ==> met == if c.acknowledged then Some(c.op.value) else None)
  {
    RunOk(init, events);
    var s := Run(init, events);
    if j < |s.log| {
      assert Changes(init, s.log, j);
    }
    if i < |s.clients| && s.clients[i].op.DeleteOp? {
      var c := s.clients[i];
      assert ClientOk(init, s, i);
      if c.acknowledged {
        assert Changes(init, s.log, c.point);
      } else if c.pc == Finished(Success) {
        DeletedIsGone(MapAt(init, s.log, c.point), c.op);
      }
    }
  }

  lemma DeletedIsGone(m: Data, op: Op)
    requires op.DeleteOp? && Atomic(m, op) == (m, Success)
    ensures op.key !in m
  {
    assert op.key !in Atomic(m, op).0;
  }
}
