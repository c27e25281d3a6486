/** bookmarkAhead: startup's comparison of a stored bookmark with the server's version, both of them strings. */
module BookmarkCheck {
  import opened Wrappers
  import opened Requests

  // ---- versions as strings ------------------------------------------------------------------------------------

  predicate Digit(ch: char) {
    '0' <= ch <= '9'
  }

  predicate Digits(s: string) {
    s != "" && forall i :: 0 <= i < |s| ==> Digit(s[i])
  }

  function Decimal(s: string): nat
    requires forall i :: 0 <= i < |s| ==> Digit(s[i])
  {
    if s == "" then 0
    else
      assert Digit(s[|s| - 1]);
      10 * Decimal(s[..|s| - 1]) + (s[|s| - 1] as int - '0' as int)
  }

  /** strconv.ParseUint(s, 10, 64), a digit at a time as it is specified: no sign, no blank, and no value of 64 bits or
      more at any point. */
  method ParseUint(s: string) returns (v: Option<nat>)
    ensures v == Version(s)
  {
    if s == "" { return None; }
    var n := 0;
    for i := 0 to |s|
      invariant forall j :: 0 <= j < i ==> Digit(s[j])
      invariant n == Decimal(s[..i]) < UINT64
    {
      if !Digit(s[i]) { return None; }
      n := 10 * n + (s[i] as int - '0' as int);
      assert s[..i + 1][..i] == s[..i];
      if n >= UINT64 {
        if Digits(s) { DecimalGrows(s, i + 1); }
        return None;
      }
    }
    assert s[..|s|] == s;
    v := Some(n);
  }

  /** The number a resourceVersion stands for, if the API server would accept it. */
  function Version(s: string): Option<nat> {
    if Digits(s) && Decimal(s) < UINT64 then Some(Decimal(s)) else None
  }

  lemma {:induction false} DecimalGrows(s: string, n: nat)
    requires Digits(s) && n <= |s|
    ensures Decimal(s[..n]) <= Decimal(s)
    decreases |s| - n
  {
    if n < |s| {
      assert s[..n + 1][..n] == s[..n];
      DecimalGrows(s, n + 1);
    } else {
      assert s[..n] == s;
    }
  }

  /** How the server writes a version. */
  function Written(v: nat): string {
    (if v < 10 then "" else Written(v / 10)) + [('0' as int + v % 10) as char]
  }

  lemma {:induction false} WrittenDecimal(v: nat)
    ensures Digits(Written(v)) && Decimal(Written(v)) == v
    decreases v
  {
    var last := [('0' as int + v % 10) as char];
    var front := if v < 10 then "" else Written(v / 10);
    if v >= 10 { WrittenDecimal(v / 10); }
    assert Written(v) == front + last;
    assert Written(v)[..|Written(v)| - 1] == front;
  }

  /** Written versions read back as themselves, below 2^64 and only there. */
  lemma VersionRoundTrips(v: nat)
    ensures Version(Written(v)) == if v < 18446744073709551616 then Some(v) else None
  {
    WrittenDecimal(v);
  }

  // ---- the check ----------------------------------------------------------------------------------------------

  const CHECK_ATTEMPTS := 3

  /** One attempt to list one object: the list's version, an error, an answer that is no list, or the end of the check's
      time or of its context. */
  datatype Reply = Listed(version: string) | Failed(error: ApiError) | NotAList | TimedOut

  /** Another attempt may follow. */
  predicate Transient(r: Reply) {
    r.Failed? && !Hopeless(r.error)
  }

  /** The n-th attempt is made and settles the check. */
  predicate Settles(replies: seq<Reply>, n: nat) {
    && n < 3 && n < |replies|
    && (forall i :: 0 <= i < n ==> Transient(replies[i]))
    && !Transient(replies[n])
  }

  /** The n-th attempt is the one that settles the check, with a version that stands for current. */
  predicate Finds(replies: seq<Reply>, n: nat, current: nat) {
    Settles(replies, n) && replies[n].Listed? && Version(replies[n].version) == Some(current)
  }

  lemma FindsOnce(replies: seq<Reply>, n: nat, current: nat, n': nat)
    requires Finds(replies, n, current) && Settles(replies, n')
    ensures n == n'
  {
  }

  /** The verdict, or None when the check could not be made: it is made exactly when the bookmark is a version and one of
      the first attempts, all before it having failed for a passing reason, finds the server's. */
  method BookmarkAhead(bookmark: string, replies: seq<Reply>) returns (ahead: Option<bool>)
    ensures forall n: nat, current: nat :: Finds(replies, n, current) && Version(bookmark).Some? ==>
              ahead == Some(Version(bookmark).value > current)
    ensures ahead.Some? ==> Version(bookmark).Some? && exists n: nat, current: nat :: Finds(replies, n, current)
  {
    ahead := None;
    var have := ParseUint(bookmark);
    if have.None? { return; }
    var n := 0;
    while n < CHECK_ATTEMPTS && n < |replies|
      invariant n <= CHECK_ATTEMPTS && n <= |replies|
      invariant forall i :: 0 <= i < n ==> Transient(replies[i])
      decreases CHECK_ATTEMPTS - n
    {
      if !replies[n].Failed? || Permanent(replies[n].error) {
        if replies[n].Listed? {
          var want := ParseUint(replies[n].version);
          if want.Some? {
            assert Finds(replies, n, want.value);
            ahead := Some(have.value > want.value);
          }
        }
        forall n': nat, current: nat | Finds(replies, n', current) ensures n' == n && Version(replies[n].version) == Some(current) {
          FindsOnce(replies, n', current, n);
        }
        return;
      }
      n := n + 1;
    }
  }

  function Attempts(failures: seq<ApiError>, version: string): seq<Reply> {
    seq(|failures|, i requires 0 <= i < |failures| => Reply.Failed(failures[i])) + [Listed(version)]
  }

  /** After some failures and a list, only the list can be found. */
  lemma FindsList(failures: seq<ApiError>, version: string, k: nat, found: nat)
    ensures Finds(Attempts(failures, version), k, found) <==>
              && k == |failures| && k < 3 && Version(version) == Some(found)
              && forall i :: 0 <= i < |failures| ==> !Hopeless(failures[i])
  {
    var replies := Attempts(failures, version);
    assert forall i :: 0 <= i < |failures| ==> replies[i] == Reply.Failed(failures[i]);
  }

  /** For versions as the server writes them: the check compares the numbers, and one that fails for good, or three times,
      never finds a bookmark ahead. */
  method CheckVersions(bookmark: nat, current: nat, failures: seq<ApiError>) returns (ahead: Option<bool>)
    requires bookmark < UINT64 && current < UINT64
    ensures ahead == if |failures| < 3 && forall i :: 0 <= i < |failures| ==> !Hopeless(failures[i])
                     then Some(bookmark > current) else None
  {
    ahead := BookmarkAhead(Written(bookmark), Attempts(failures, Written(current)));
    VersionRoundTrips(bookmark);
    VersionRoundTrips(current);
    forall k: nat, found: nat
      ensures Finds(Attempts(failures, Written(current)), k, found) <==>
                && k == |failures| && k < 3 && found == current
                && forall i :: 0 <= i < |failures| ==> !Hopeless(failures[i])
    {
      FindsList(failures, Written(current), k, found);
    }
    if |failures| < 3 && forall i :: 0 <= i < |failures| ==> !Hopeless(failures[i]) {
      assert Finds(Attempts(failures, Written(current)), |failures|, current);
    }
  }
}
