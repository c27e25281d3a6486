/** Redaction of environment variables: on the objects in place, as the scrubber does it, and as a function on values
    (internal/safety/safety.go). */
module Safety {
  import opened Wrappers
  import opened Data

  const REDACTED := "REDACTED"

  // ---- on values ----------------------------------------------------------------------------------------------

  function RedactEnv(env: seq<EnvVar>): (r: seq<EnvVar>)
    ensures |r| == |env| && forall i :: 0 <= i < |env| ==> r[i] == EnvVar(env[i].name, REDACTED)
  {
    seq(|env|, i requires 0 <= i < |env| => env[i].(value := REDACTED))
  }

  function RedactContainers(cs: seq<Container>): (r: seq<Container>)
    ensures |r| == |cs| && forall i :: 0 <= i < |cs| ==> r[i] == Container(cs[i].name, RedactEnv(cs[i].env))
  {
    seq(|cs|, i requires 0 <= i < |cs| => cs[i].(env := RedactEnv(cs[i].env)))
  }

  function RedactSpec(spec: PodSpec): PodSpec {
    PodSpec(RedactContainers(spec.containers), RedactContainers(spec.initContainers), RedactContainers(spec.ephemeralContainers))
  }

  /** scrubber: the entry that is passed on, or None for one whose tag its object does not bear out. */
  function Scrub(e: Entry): Option<Entry> {
    match e.objectType
    case OTPod => if AssertKind(e, Pod).Ok? then Some(e.(data := e.data.(spec := RedactSpec(e.data.spec)))) else None
    case OTDeployment => if AssertKind(e, Deployment).Ok? then Some(e.(data := e.data.(spec := RedactSpec(e.data.spec)))) else None
    case _ => Some(e)
  }

  ghost predicate EnvRedacted(cs: seq<Container>) {
    forall i, j :: 0 <= i < |cs| && 0 <= j < |cs[i].env| ==> cs[i].env[j].value == "REDACTED"
  }

  /** No environment variable of a pod, or of a deployment's pods, has a value left. */
  ghost predicate Clean(e: Entry) {
    e.data.kind == Pod || e.data.kind == Deployment ==>
      && EnvRedacted(e.data.spec.containers) && EnvRedacted(e.data.spec.initContainers)
      && EnvRedacted(e.data.spec.ephemeralContainers)
  }

  predicate Tagged(e: Entry) {
    e.data.kind != Unsupported && e.objectType == TagOf(e.data.kind)
  }

  /** An entry whose tag is right is never dropped: it comes out clean, the same but for the values of its variables, and
      scrubbing it again changes nothing. */
  lemma ScrubCleans(e: Entry)
    requires Tagged(e)
    ensures Scrub(e).Some? && Clean(Scrub(e).value) && Tagged(Scrub(e).value)
    ensures Scrub(Scrub(e).value) == Scrub(e)
    ensures var r := Scrub(e).value; r.(data := e.data) == e && r.data.(spec := e.data.spec) == e.data
    ensures !e.data.kind.Pod? && !e.data.kind.Deployment? ==> Scrub(e) == Some(e)
  {
    TagInjective(e.data.kind, Pod);
    TagInjective(e.data.kind, Deployment);
    RedactTwice(e.data.spec);
  }

  /** An entry is dropped exactly when its tag claims a pod or a deployment that its object is not. */
  lemma ScrubDropsExactly(e: Entry)
    ensures Scrub(e).None? <==> (e.objectType.OTPod? && !e.data.kind.Pod?) || (e.objectType.OTDeployment? && !e.data.kind.Deployment?)
  {
  }

  lemma RedactTwice(spec: PodSpec)
    ensures RedactSpec(RedactSpec(spec)) == RedactSpec(spec)
  {
    RedactContainersTwice(spec.containers);
    RedactContainersTwice(spec.initContainers);
    RedactContainersTwice(spec.ephemeralContainers);
  }

  lemma RedactContainersTwice(cs: seq<Container>)
    ensures RedactContainers(RedactContainers(cs)) == RedactContainers(cs)
  {
    forall i | 0 <= i < |cs| ensures RedactContainers(RedactContainers(cs))[i] == RedactContainers(cs)[i] {
      assert RedactEnv(RedactEnv(cs[i].env)) == RedactEnv(cs[i].env);
    }
  }

  // ---- in place -----------------------------------------------------------------------------------------------

  /** A corev1.Container: a struct whose Env slice it shares with every copy of it. */
  datatype ContainerRef = ContainerRef(name: string, env: array<EnvVar>)

  class Spec {
    const containers: array<ContainerRef>
    const initContainers: array<ContainerRef>
    const ephemeralContainers: array<ContainerRef>

    constructor (containers: array<ContainerRef>, initContainers: array<ContainerRef>, ephemeralContainers: array<ContainerRef>)
      ensures this.containers == containers && this.initContainers == initContainers
      ensures this.ephemeralContainers == ephemeralContainers
    {
      this.containers, this.initContainers, this.ephemeralContainers := containers, initContainers, ephemeralContainers;
    }
  }

  function Envs(refs: seq<ContainerRef>): set<array<EnvVar>> {
    set i | 0 <= i < |refs| :: refs[i].env
  }

  function SpecEnvs(spec: Spec): set<array<EnvVar>>
    reads spec.containers, spec.initContainers, spec.ephemeralContainers
  {
    Envs(spec.containers[..]) + Envs(spec.initContainers[..]) + Envs(spec.ephemeralContainers[..])
  }

  /** The value of some containers. */
  ghost function Values(refs: seq<ContainerRef>): seq<Container>
    reads Envs(refs)
  {
    seq(|refs|, i requires 0 <= i < |refs| reads Envs(refs) => Container(refs[i].name, refs[i].env[..]))
  }

  ghost function SpecValue(spec: Spec): PodSpec
    reads spec.containers, spec.initContainers, spec.ephemeralContainers, SpecEnvs(spec)
  {
    PodSpec(Values(spec.containers[..]), Values(spec.initContainers[..]), Values(spec.ephemeralContainers[..]))
  }

  /** scrubEnv: overwrites every variable's value. */
  method ScrubEnv(env: array<EnvVar>)
    modifies env
    ensures env[..] == RedactEnv(old(env[..]))
  {
    for i := 0 to env.Length
      invariant forall j :: 0 <= j < i ==> env[j] == old(env[j]).(value := REDACTED)
      invariant forall j :: i <= j < env.Length ==> env[j] == old(env[j])
    {
      env[i] := env[i].(value := REDACTED);
    }
  }

  type Snapshot = map<array<EnvVar>, seq<EnvVar>>

  /** Every variable list is as it was before, or redacted; those in `done` are redacted. */
  ghost predicate Redacting(before: Snapshot, done: set<array<EnvVar>>)
    reads before.Keys
  {
    && done <= before.Keys
    && (forall e :: e in before ==> e[..] == before[e] || e[..] == RedactEnv(before[e]))
    && (forall e :: e in done ==> e[..] == RedactEnv(before[e]))
  }

  /** scrubPodSpec's loop over one kind of container. Containers may share variable lists, with each other and with
      those of other kinds. */
  method ScrubContainers(cs: array<ContainerRef>, ghost before: Snapshot, ghost done: set<array<EnvVar>>)
    requires Envs(cs[..]) <= before.Keys && Redacting(before, done)
    modifies cs, before.Keys
    ensures cs[..] == old(cs[..]) && Redacting(before, done + Envs(cs[..]))
  {
    for i := 0 to cs.Length
      invariant cs[..] == old(cs[..]) && Redacting(before, done)
      invariant forall j :: 0 <= j < i ==> cs[j].env[..] == RedactEnv(before[cs[j].env])
    {
      var cont := cs[i];
      assert cs[..][i] == cont && cont.env in Envs(cs[..]);
      ghost var mid := cont.env[..];
      ScrubEnv(cont.env);
      assert RedactEnv(mid) == RedactEnv(before[cont.env]);
      cs[i] := cont;
    }
  }

  lemma ValuesRedacted(refs: seq<ContainerRef>, before: Snapshot, done: set<array<EnvVar>>, was: seq<Container>)
    requires Redacting(before, done) && Envs(refs) <= done && |was| == |refs|
    requires forall i :: 0 <= i < |refs| ==> refs[i].env in before && was[i] == Container(refs[i].name, before[refs[i].env])
    ensures Values(refs) == RedactContainers(was)
  {
    forall i | 0 <= i < |refs| ensures Values(refs)[i] == RedactContainers(was)[i] {
      assert refs[i].env in Envs(refs);
    }
  }

  /** scrubPodSpec: every kind of container, in place. Whatever is shared, the spec's new value is the redaction of its
      old value. */
  method ScrubPodSpec(spec: Spec)
    modifies spec.containers, spec.initContainers, spec.ephemeralContainers, SpecEnvs(spec)
    ensures SpecValue(spec) == RedactSpec(old(SpecValue(spec)))
  {
    ghost var before: Snapshot := map e | e in SpecEnvs(spec) :: e[..];
    ghost var a, b, c := spec.containers[..], spec.initContainers[..], spec.ephemeralContainers[..];
    ghost var was := SpecValue(spec);
    ScrubContainers(spec.containers, before, {});
    assert spec.initContainers[..] == b && spec.ephemeralContainers[..] == c;
    ScrubContainers(spec.initContainers, before, {} + Envs(a));
    assert spec.containers[..] == a && spec.ephemeralContainers[..] == c;
    ScrubContainers(spec.ephemeralContainers, before, {} + Envs(a) + Envs(b));
    assert spec.containers[..] == a && spec.initContainers[..] == b;
    ghost var done := {} + Envs(a) + Envs(b) + Envs(c);
    ValuesRedacted(a, before, done, was.containers);
    ValuesRedacted(b, before, done, was.initContainers);
    ValuesRedacted(c, before, done, was.ephemeralContainers);
  }
}
