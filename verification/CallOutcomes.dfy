/** How calls on the bookmark store end: an error has its cause, a passing failure is tried again, and a call that nobody
    disturbs does what it was called for. */
module CallOutcomes {
  import opened Wrappers
  import opened Requests
  import opened ConfigMapStore

  /** This reply makes client i's outstanding attempt fail, with an error; an update based on an outdated version is one. */
  function AttemptError(s: System, i: nat, reply: Reply): Option<ApiError> {
    if i >= |s.clients| then None
    else
      match s.clients[i].pc
      case Fetching =>
        if reply.GetFailed? && !(s.clients[i].op.DeleteOp? && reply.error.NotFound?) then Some(reply.error) else None
      case Updating(_, version) =>
        (match reply
         case UpdateOk => if version != s.version then Some(Conflict) else None
         case UpdateUnclear(e) => Some(e)
         case UpdateFailed(e) => Some(e)
         case _ => None)
      case Finished(_) => None
  }

  function FailedAttempt(s: System, e: Event, i: nat): nat {
    if e.Answer? && e.client == i && AttemptError(s, i, e.reply).Some? then 1 else 0
  }

  /** How many of client i's attempts have failed. */
  function FailedAttempts(init: Data, events: seq<Event>, i: nat): nat {
    if events == [] then 0
    else
      var before := events[..|events| - 1];
      FailedAttempts(init, before, i) + FailedAttempt(Run(init, before), events[|events| - 1], i)
  }

  /** The event ends client i's call: its context is done, or its attempt failed with a hopeless error. */
  predicate Ends(s: System, e: Event, i: nat) {
    && e.Answer? && e.client == i && i < |s.clients| && !s.clients[i].pc.Finished?
    && (e.reply.Cancelled? || (AttemptError(s, i, e.reply).Some? && Hopeless(AttemptError(s, i, e.reply).value)))
  }

  ghost predicate EndedByEvent(init: Data, events: seq<Event>, i: nat) {
    exists n :: 0 <= n < |events| && Ends(Run(init, events[..n]), events[n], i)
  }

  ghost predicate EndingOk(init: Data, events: seq<Event>, i: nat) {
    var s := Run(init, events);
    var failed := FailedAttempts(init, events, i);
    if i >= |s.clients| then failed == 0
    else
      && (!s.clients[i].pc.Finished? ==> s.clients[i].attempt == failed + 1 && failed < 5)
      && (s.clients[i].pc == Finished(Failure) ==> EndedByEvent(init, events, i) || failed == 5)
  }

  lemma EndedStays(init: Data, events: seq<Event>, i: nat)
    requires events != [] && EndedByEvent(init, events[..|events| - 1], i)
    ensures EndedByEvent(init, events, i)
  {
    var before := events[..|events| - 1];
    var n :| 0 <= n < |before| && Ends(Run(init, before[..n]), before[n], i);
    assert events[..n] == before[..n] && events[n] == before[n];
  }

  lemma EndedNow(init: Data, events: seq<Event>, i: nat)
    requires events != [] && Ends(Run(init, events[..|events| - 1]), events[|events| - 1], i)
    ensures EndedByEvent(init, events, i)
  {
  }

  /** What one event makes of client i, given what it was. */
  predicate EndingView(s: System, e: Event, i: nat, c: Client, c': Client) {
    if c.pc.Finished? then c'.pc == c.pc && FailedAttempt(s, e, i) == 0
    else if Ends(s, e, i) then c'.pc == Finished(Failure)
    else if FailedAttempt(s, e, i) == 1 then
      if c.attempt >= 5 then c'.pc == Finished(Failure) else c'.pc == Fetching && c'.attempt == c.attempt + 1
    else c'.attempt == c.attempt && c'.pc != Finished(Failure)
  }

  lemma OthersEnding(s: System, e: Event, i: nat)
    requires i < |s.clients| && !(e.Answer? && e.client == i)
    ensures var s' := Step(s, e); i < |s'.clients| && EndingView(s, e, i, s.clients[i], s'.clients[i])
  {
  }

  lemma FetchingEnding(s: System, i: nat, reply: Reply)
    requires i < |s.clients| && s.clients[i].pc.Fetching?
    ensures var s' := Step(s, Answer(i, reply)); i < |s'.clients| && EndingView(s, Answer(i, reply), i, s.clients[i], s'.clients[i])
  {
  }

  lemma OtherwiseEnding(s: System, i: nat, reply: Reply)
    requires i < |s.clients| && !s.clients[i].pc.Fetching?
    ensures var s' := Step(s, Answer(i, reply)); i < |s'.clients| && EndingView(s, Answer(i, reply), i, s.clients[i], s'.clients[i])
  {
  }

  lemma EndingStep(s: System, e: Event, i: nat)
    requires i < |s.clients|
    ensures var s' := Step(s, e); i < |s'.clients| && EndingView(s, e, i, s.clients[i], s'.clients[i])
  {
    if e.Answer? && e.client == i {
      if s.clients[i].pc.Fetching? { FetchingEnding(s, i, e.reply); } else { OtherwiseEnding(s, i, e.reply); }
    } else {
      OthersEnding(s, e, i);
    }
  }

  /** A client that has not begun has failed at nothing. */
  lemma NewcomerEnding(s: System, e: Event, i: nat)
    requires i >= |s.clients|
    ensures FailedAttempt(s, e, i) == 0
    ensures var s' := Step(s, e); i < |s'.clients| ==> s'.clients[i].pc == Fetching && s'.clients[i].attempt == 1
  {
  }

  lemma EndingKept(init: Data, before: seq<Event>, e: Event, i: nat)
    requires EndingOk(init, before, i)
    ensures EndingOk(init, before + [e], i)
  {
    var events, s := before + [e], Run(init, before);
    assert events[..|events| - 1] == before;
    if i < |s.clients| {
      EndingStep(s, e, i);
      if Ends(s, e, i) { EndedNow(init, events, i); }
      if EndedByEvent(init, before, i) { EndedStays(init, events, i); }
    } else {
      NewcomerEnding(s, e, i);
    }
  }

  lemma {:induction false} RunEndingOk(init: Data, events: seq<Event>, i: nat)
    ensures EndingOk(init, events, i)
    decreases |events|
  {
    if events != [] {
      RunEndingOk(init, events[..|events| - 1], i);
      EndingKept(init, events[..|events| - 1], events[|events| - 1], i);
      assert events[..|events| - 1] + [events[|events| - 1]] == events;
    }
  }

  /** For any interleaving: a call that returned an error had its context cancelled, or met an error that no retry can help,
      or failed five times; an update refused as outdated is one failure, never the end. */
  lemma FailureHasCause(init: Data, events: seq<Event>, i: nat)
    requires i < |Run(init, events).clients| && Run(init, events).clients[i].pc == Finished(Failure)
    ensures EndedByEvent(init, events, i) || FailedAttempts(init, events, i) == 5
  {
    RunEndingOk(init, events, i);
  }

  /** A call whose attempt fails for a passing reason before the fifth time, such as being outdated, fetches again. */
  lemma OutdatedFetchesAgain(init: Data, events: seq<Event>, i: nat, reply: Reply)
    requires var s := Run(init, events);
             && i < |s.clients| && AttemptError(s, i, reply).Some? && !Hopeless(AttemptError(s, i, reply).value)
             && FailedAttempts(init, events, i) < 4
    ensures Step(Run(init, events), Answer(i, reply)).clients[i].pc == Fetching
  {
    RunEndingOk(init, events, i);
    EndingStep(Run(init, events), Answer(i, reply), i);
  }

  /** And one that fetches undisturbed does what it was called for: at once when nothing is to do, otherwise with one commit. */
  lemma UndisturbedCallSucceeds(init: Data, events: seq<Event>, i: nat)
    requires var s := Run(init, events); i < |s.clients| && s.clients[i].pc.Fetching?
    ensures var s := Run(init, events);
            var op, fetched := s.clients[i].op, Step(s, Answer(i, GetOk));
            var met := Value(s.data, op.key);
            if op.StoreOp? && met != Some(op.value) then
              var done := Step(fetched, Answer(i, UpdateOk));
              done.clients[i].pc == Finished(Success) && done.data == s.data[op.key := op.value] && done.log == s.log + [Commit(i, op)]
            else if op.DeleteOp? && met == Some(op.value) then
              var done := Step(fetched, Answer(i, UpdateOk));
              done.clients[i].pc == Finished(Success) && done.data == s.data - {op.key} && done.log == s.log + [Commit(i, op)]
            else fetched.data == s.data && fetched.log == s.log
                 && fetched.clients[i].pc == Finished(if op.DeleteOp? && met.Some? then Changed else Success)
  {
  }
}
