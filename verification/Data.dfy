/** The entries every stage passes on (data/data.go). A Go pointer is modelled by the value it points to; its dynamic
    type is `kind`, and the tag the constructors derive from it is `objectType`. */
module Data {
  import opened Wrappers

  type Uid = nat

  datatype EnvVar = EnvVar(name: string, value: string)
  datatype Container = Container(name: string, env: seq<EnvVar>)
  datatype PodSpec = PodSpec(containers: seq<Container>, initContainers: seq<Container>, ephemeralContainers: seq<Container>)

  /** The dynamic Go type of an object: the twelve that have an ObjectType, and every other. */
  datatype Kind =
    | Node | Pod | Namespace | PersistentVolume | ClusterRole | ClusterRoleBinding | Role | RoleBinding
    | Service | Deployment | Ingress | Endpoints | Unsupported

  datatype ObjectType =
    | OTUnknown | OTNode | OTPod | OTNamespace | OTPersistentVolume | OTClusterRole | OTClusterRoleBinding | OTRole
    | OTRoleBinding | OTService | OTDeployment | OTIngressController | OTEndpoint

  datatype SourceType = STUnknown | STInformer | STWatchList | STEtcd
  datatype ChangeType = CTUnknown | CTAdd | CTUpdate | CTDelete | CTSnapshot

  /** `spec` is the pod spec of a Pod, or of a Deployment's template; `rest` stands for everything else. */
  datatype Object = Object(kind: Kind, uid: Uid, spec: PodSpec, rest: int)

  /** A value of the interface type runtime.Object. */
  datatype RuntimeObject = NilInterface | NilPointer(kind: Kind) | Pointer(obj: Object)

  datatype Entry = Entry(data: Object, uid: Uid, sourceType: SourceType, changeType: ChangeType, objectType: ObjectType)

  datatype EntryError = InvalidType | NilObject | UnknownEventType | WrongType

  /** An object of one of the twelve kinds the Reader watches. */
  type ApiObject = o: Object | o.kind != Unsupported witness Object(Node, 0, PodSpec([], [], []), 0)

  function TagOf(kind: Kind): ObjectType {
    match kind
    case Node => OTNode
    case Pod => OTPod
    case Namespace => OTNamespace
    case PersistentVolume => OTPersistentVolume
    case ClusterRole => OTClusterRole
    case ClusterRoleBinding => OTClusterRoleBinding
    case Role => OTRole
    case RoleBinding => OTRoleBinding
    case Service => OTService
    case Deployment => OTDeployment
    case Ingress => OTIngressController
    case Endpoints => OTEndpoint
    case Unsupported => OTUnknown
  }

  function NewEntry(obj: RuntimeObject, st: SourceType, ct: ChangeType): Result<Entry, EntryError> {
    match obj
    case NilInterface => Err(InvalidType)
    case NilPointer(kind) => if kind == Unsupported then Err(InvalidType) else Err(NilObject)
    case Pointer(o) =>
      if o.kind == Unsupported then Err(InvalidType)
      else Ok(Entry(o, o.uid, st, ct, TagOf(o.kind)))
  }

  datatype WatchEventType = Added | Modified | Deleted | Bookmark | Error | OtherEvent

  function WatchEventToEntry(typ: WatchEventType, obj: RuntimeObject): Result<Entry, EntryError> {
    match typ
    case Added => NewEntry(obj, STWatchList, CTAdd)
    case Modified => NewEntry(obj, STWatchList, CTUpdate)
    case Deleted => NewEntry(obj, STWatchList, CTDelete)
    case _ => Err(UnknownEventType)
  }

  /** The accessors Pod() and Deployment(): a checked type assertion on the data, whatever the tag says. */
  function AssertKind(e: Entry, kind: Kind): Result<Object, EntryError> {
    if e.data.kind == kind then Ok(e.data) else Err(WrongType)
  }

  /** The entries the constructors make: the tag and UID are those of the data. */
  predicate Constructed(e: Entry) {
    e.data.kind != Unsupported && e.objectType == TagOf(e.data.kind) && e.uid == e.data.uid
  }

  /** The type an entry is tagged with is the one named after its object's kind. */
  predicate Named(kind: Kind, tag: ObjectType) {
    || (kind.Node? && tag.OTNode?) || (kind.Pod? && tag.OTPod?) || (kind.Namespace? && tag.OTNamespace?)
    || (kind.PersistentVolume? && tag.OTPersistentVolume?) || (kind.ClusterRole? && tag.OTClusterRole?)
    || (kind.ClusterRoleBinding? && tag.OTClusterRoleBinding?) || (kind.Role? && tag.OTRole?)
    || (kind.RoleBinding? && tag.OTRoleBinding?) || (kind.Service? && tag.OTService?)
    || (kind.Deployment? && tag.OTDeployment?) || (kind.Ingress? && tag.OTIngressController?)
    || (kind.Endpoints? && tag.OTEndpoint?)
  }

  /** Watch events and the change they report. */
  lemma WatchEventsConvert(typ: WatchEventType, o: ApiObject)
    ensures var e := WatchEventToEntry(typ, Pointer(o));
            && (e.Ok? <==> typ.Added? || typ.Modified? || typ.Deleted?)
            && (e.Ok? ==> e.value.data == o && e.value.uid == o.uid && e.value.sourceType == STWatchList)
            && (e.Ok? ==> (typ.Added? <==> e.value.changeType.CTAdd?) && (typ.Modified? <==> e.value.changeType.CTUpdate?)
                          && (typ.Deleted? <==> e.value.changeType.CTDelete?))
  {
  }

  /** An entry is made exactly for a non-nil pointer to one of the twelve kinds; it holds that object under its own
      UID, and an accessor succeeds exactly when the tag names its kind. */
  lemma NewEntryConstructs(obj: RuntimeObject, st: SourceType, ct: ChangeType, kind: Kind)
    requires kind != Unsupported
    ensures NewEntry(obj, st, ct).Ok? <==> obj.Pointer? && obj.obj.kind != Unsupported
    ensures NewEntry(obj, st, ct).Ok? ==>
              var e := NewEntry(obj, st, ct).value;
              && Constructed(e) && e.data == obj.obj && e.sourceType == st && e.changeType == ct
              && (AssertKind(e, kind).Ok? <==> e.objectType == TagOf(kind))
              && Named(obj.obj.kind, e.objectType)
  {
    match obj
    case Pointer(o) => TagInjective(o.kind, kind);
    case _ =>
  }

  lemma TagInjective(a: Kind, b: Kind)
    ensures TagOf(a) == TagOf(b) <==> a == b
  {
    match a { case _ => match b { case _ => } }
  }
}
