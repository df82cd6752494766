// Pods as the webhook sees them, and JSON Patch (RFC 6902) restricted to the "add"
// operations the webhook emits.
module PodPatch {
  import opened GoText

  datatype ClaimSource = ClaimSource(claimName: string, readOnly: bool)
  datatype Volume = Volume(name: string, claim: Option<ClaimSource>)
  datatype VolumeMount = VolumeMount(name: string, mountPath: string)
  datatype EnvSource = EnvSource(prefix: string, configMapRef: Option<string>, secretRef: Option<string>)

  // None is a member that is absent from the JSON document; Go decodes it to a nil slice.
  datatype Container = Container(
    name: string,
    volumeMounts: Option<seq<VolumeMount>>,
    envFrom: Option<seq<EnvSource>>)

  datatype Kind = Init | Main

  datatype Pod = Pod(
    name: string,
    namespace: string,
    labels: map<string, string>,
    volumes: Option<seq<Volume>>,
    initContainers: seq<Container>,
    containers: seq<Container>)
  {
    function Containers(kind: Kind): seq<Container> {
      if kind.Init? then initContainers else containers
    }

    function WithContainers(kind: Kind, cs: seq<Container>): Pod {
      if kind.Init? then this.(initContainers := cs) else this.(containers := cs)
    }

    function Set(kind: Kind, c: nat, x: Container): Pod
      requires c < |Containers(kind)|
    {
      WithContainers(kind, Containers(kind)[c := x])
    }

    lemma SetSame(kind: Kind, c: nat)
      requires c < |Containers(kind)|
      ensures Set(kind, c, Containers(kind)[c]) == this
    {
      assert Containers(kind)[c := Containers(kind)[c]] == Containers(kind);
    }

    lemma SetTwice(kind: Kind, c: nat, x: Container, y: Container)
      requires c < |Containers(kind)|
      ensures |Set(kind, c, x).Containers(kind)| == |Containers(kind)|
      ensures Set(kind, c, x).Containers(kind)[c] == x
      ensures Set(kind, c, x).Set(kind, c, y) == Set(kind, c, y)
    {
      assert Containers(kind)[c := x][c := y] == Containers(kind)[c := y];
    }
  }

  // A Go slice read: nil and empty look the same.
  function Items<T>(s: Option<seq<T>>): seq<T> {
    if s.Some? then s.value else []
  }

  // The JSON pointers of the patch, kept structured:
  //   /spec/volumes/<index>
  //   /spec/<kind>/<container>/volumeMounts/<index>
  //   /spec/<kind>/<container>/envFrom/-
  //   /spec/<kind>/<container>/envFrom
  datatype Pointer =
    | VolumeAt(index: nat)
    | MountAt(kind: Kind, container: nat, index: nat)
    | EnvEnd(kind: Kind, container: nat)
    | EnvMember(kind: Kind, container: nat)

  datatype Value =
    | AVolume(volume: Volume)
    | AMount(mount: VolumeMount)
    | ASource(source: EnvSource)
    | Sources(sources: seq<EnvSource>)

  datatype Op = Add(path: Pointer, value: Value)

  function InsertAt<T>(s: seq<T>, i: nat, x: T): seq<T>
    requires i <= |s|
  {
    s[..i] + [x] + s[i..]
  }

  // The new element is at its index; those from there on have moved up by one.
  lemma InsertMeaning<T>(s: seq<T>, i: nat, x: T)
    requires i <= |s|
    ensures var r := InsertAt(s, i, x);
            && |r| == |s| + 1 && r[i] == x
            && (forall j :: 0 <= j < i ==> r[j] == s[j])
            && (forall j :: i <= j < |s| ==> r[j + 1] == s[j])
  {
  }

  // "add", section 4.1 of RFC 6902: into an array it inserts, and the index must not
  // exceed the length; the array itself must exist; "-" appends; on an object member it
  // creates or replaces.
  function Apply(pod: Pod, op: Op): Option<Pod> {
    match op
    case Add(VolumeAt(i), AVolume(v)) =>
      if pod.volumes.Some? && i <= |pod.volumes.value|
      then Some(pod.(volumes := Some(InsertAt(pod.volumes.value, i, v))))
      else None
    case Add(MountAt(kind, c, i), AMount(m)) =>
      var cs := pod.Containers(kind);
      if c < |cs| && cs[c].volumeMounts.Some? && i <= |cs[c].volumeMounts.value|
      then Some(pod.Set(kind, c, cs[c].(volumeMounts := Some(InsertAt(cs[c].volumeMounts.value, i, m)))))
      else None
    case Add(EnvEnd(kind, c), ASource(e)) =>
      var cs := pod.Containers(kind);
      if c < |cs| && cs[c].envFrom.Some?
      then Some(pod.Set(kind, c, cs[c].(envFrom := Some(cs[c].envFrom.value + [e]))))
      else None
    case Add(EnvMember(kind, c), Sources(es)) =>
      var cs := pod.Containers(kind);
      if c < |cs|
      then Some(pod.Set(kind, c, cs[c].(envFrom := Some(es))))
      else None
    case _ => None
  }

  // A patch is applied in order and fails as a whole, section 5 of RFC 6902.
  function ApplyAll(pod: Pod, ops: seq<Op>): Option<Pod> {
    if ops == [] then Some(pod)
    else
      match ApplyAll(pod, ops[..|ops| - 1])
      case None => None
      case Some(p) => Apply(p, ops[|ops| - 1])
  }

  lemma {:induction false} ApplyAppend(pod: Pod, a: seq<Op>, b: seq<Op>)
    ensures ApplyAll(pod, a + b) ==
            match ApplyAll(pod, a) case None => None case Some(p) => ApplyAll(p, b)
  {
    if b == [] {
      assert a + b == a;
    } else {
      var front := b[..|b| - 1];
      ApplyAppend(pod, a, front);
      assert (a + b)[..|a + b| - 1] == a + front;
    }
  }
}
