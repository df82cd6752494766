// CreateVolume and DeleteVolume of the CSI driver over an object store.
module Volumes {
  import opened GoText

  type Data = map<string, string>
  type Buckets = map<string, set<string>>

  // ---------------------------------------------------------------- sanitizeVolumeID

  predicate IsHexDigit(c: char) { '0' <= c <= '9' || 'a' <= c <= 'f' }

  // What matters here of SHA-1 in hexadecimal.
  ghost predicate IsHexDigest(sha1: string -> string) {
    forall s: string :: |sha1(s)| == 40 && forall c <- sha1(s) :: IsHexDigit(c)
  }

  function LowerChar(c: char): char {
    if 'A' <= c <= 'Z' then (c as int - 'A' as int + 'a' as int) as char else c
  }

  function ToLower(s: string): string {
    seq(|s|, i requires 0 <= i < |s| => LowerChar(s[i]))
  }

  function Sanitize(sha1: string -> string, volumeID: string): string {
    var id := ToLower(volumeID);
    if |id| > 63 then sha1(id) else id
  }

  lemma SanitizeIdempotent(sha1: string -> string, volumeID: string)
    requires IsHexDigest(sha1)
    ensures |Sanitize(sha1, volumeID)| <= 63
    ensures Sanitize(sha1, Sanitize(sha1, volumeID)) == Sanitize(sha1, volumeID)
    ensures Sanitize(sha1, volumeID) == "" <==> volumeID == ""
  {
    var id := ToLower(volumeID);
    assert ToLower(id) == id;
    if |id| > 63 {
      var h := sha1(id);
      forall i | 0 <= i < |h| ensures LowerChar(h[i]) == h[i] {
        assert h[i] in h;
      }
      assert ToLower(h) == h;
    }
  }

  // ------------------------------------------------------------------- the client

  datatype Config = Config(
    accessKeyID: string, secretAccessKey: string, region: string, endpoint: string,
    bucket: string, folder: string, readonly: bool, provision: bool, removeOnDelete: bool)

  // An option that does not parse counts as false.
  function Flag(secrets: Data, key: string): bool {
    ParseBool(Get(secrets, key)) == Some(true)
  }

  // newS3ClientFromSecrets
  function ConfigFrom(secrets: Data): Config {
    Config(Get(secrets, "accessKeyID"), Get(secrets, "secretAccessKey"), Get(secrets, "region"),
           Get(secrets, "endpoint"), Get(secrets, "bucket"), Get(secrets, "folder"),
           Flag(secrets, "readonly"), Flag(secrets, "provision"), Flag(secrets, "remove-on-delete"))
  }

  function ChosenBucket(cfg: Config, volumeID: string): string {
    if |cfg.bucket| != 0 then cfg.bucket else volumeID
  }

  datatype Request =
    | CreateRequest(name: string, hasCapabilities: bool, secrets: Data)
    | DeleteRequest(volumeID: string, secrets: Data)

  datatype Response = Created(volumeID: string) | Deleted | Invalid | Failed

  // What the driver knows: whether it offers create and delete, and which endpoints the
  // client library accepts.
  datatype Driver = Driver(sha1: string -> string, offers: bool, accepts: string -> bool)
  {
    function Target(r: Request): string {
      ChosenBucket(ConfigFrom(r.secrets),
                   match r case CreateRequest(name, _, _) => Sanitize(sha1, name) case DeleteRequest(id, _) => id)
    }

    // The buckets after a call and the answer, when the store does not fail.
    function Serve(buckets: Buckets, r: Request): (Buckets, Response) {
      var cfg := ConfigFrom(r.secrets);
      var bucket := Target(r);
      match r
      case CreateRequest(name, hasCapabilities, _) =>
        var id := Sanitize(sha1, name);
        if !offers then (buckets, Failed)
        else if |id| == 0 || !hasCapabilities then (buckets, Invalid)
        else if !accepts(cfg.endpoint) then (buckets, Failed)
        else if bucket in buckets then (buckets, Created(id))
        else if cfg.provision then (buckets[bucket := {}], Created(id))
        else (buckets, Failed)
      case DeleteRequest(id, _) =>
        if |id| == 0 then (buckets, Invalid)
        else if !offers || !accepts(cfg.endpoint) then (buckets, Failed)
        else if bucket in buckets && cfg.removeOnDelete then (buckets - {bucket}, Deleted)
        else (buckets, Deleted)
    }

    // What a call may do to the store, also when the store fails on the way.
    ghost predicate MayDo(r: Request, b: Buckets, b': Buckets) {
      match r
      case CreateRequest(_, _, _) => MayCreate(Target(r), ConfigFrom(r.secrets).provision, b, b')
      case DeleteRequest(_, _) => MayDelete(Target(r), ConfigFrom(r.secrets).removeOnDelete, b, b')
    }
  }

  predicate MayCreate(bucket: string, provision: bool, b: Buckets, b': Buckets) {
    b' == b || (provision && bucket !in b && b' == b[bucket := {}])
  }

  ghost predicate MayDelete(bucket: string, remove: bool, b: Buckets, b': Buckets) {
    || b' == b
    || (remove && bucket in b
        && (b' == b - {bucket} || exists left: set<string> :: left <= b[bucket] && b' == b[bucket := left]))
  }

  // The bucket of a volume: the one that the secrets name, else the one of its id.
  predicate BucketNamed(secrets: Data, volumeID: string, bucket: string) {
    bucket == if Get(secrets, "bucket") != "" then Get(secrets, "bucket") else volumeID
  }

  predicate SameBut(b: Buckets, b': Buckets, bucket: string) {
    b' - {bucket} == b - {bucket}
  }

  class Store {
    const driver: Driver
    const reliable: bool
    var buckets: Buckets

    constructor (driver: Driver, reliable: bool)
      ensures this.driver == driver && this.reliable == reliable && buckets == map[]
    {
      this.driver, this.reliable, buckets := driver, reliable, map[];
    }

    method Fails() returns (fails: bool)
      ensures reliable ==> !fails
    {
      fails := *;
      fails := fails && !reliable;
    }

    method BucketExists(bucket: string) returns (ok: bool, exists': bool)
      ensures ok ==> exists' == (bucket in buckets)
      ensures reliable ==> ok
    {
      var fails := Fails();
      return !fails, bucket in buckets;
    }

    method CreateBucket(bucket: string) returns (ok: bool)
      requires bucket !in buckets
      modifies this
      ensures ok || reliable ==> ok && buckets == old(buckets)[bucket := {}]
      ensures buckets == old(buckets) || buckets == old(buckets)[bucket := {}]
    {
      var fails := Fails();
      var lost := Fails();
      if !fails {
        buckets := buckets[bucket := {}];
      }
      ok := !fails && !lost;
    }

    // Objects that cannot be removed are logged and left; emptyBucket does not report
    // them, because it looks at the error channel after draining it.
    method EmptyBucket(bucket: string) returns (ok: bool)
      requires bucket in buckets
      modifies this
      ensures bucket in buckets && buckets[bucket] <= old(buckets)[bucket]
      ensures buckets == old(buckets)[bucket := buckets[bucket]]
      ensures reliable ==> ok && buckets[bucket] == {}
    {
      var listFails := Fails();
      if listFails {
        return false;
      }
      var objects := buckets[bucket];
      var left: set<string> := *;
      left := if reliable then {} else left * objects;
      buckets := buckets[bucket := left];
      return true;
    }

    // The store refuses to remove a bucket that still holds objects.
    method RemoveBucket(bucket: string) returns (ok: bool)
      requires bucket in buckets
      modifies this
      ensures buckets == old(buckets) - {bucket} || exists left: set<string> ::
                left <= old(buckets)[bucket] && buckets == old(buckets)[bucket := left]
      ensures ok || reliable ==> ok && buckets == old(buckets) - {bucket}
    {
      ok := EmptyBucket(bucket);
      if !ok {
        return;
      }
      var fails := Fails();
      var lost := Fails();
      if fails || buckets[bucket] != {} {
        return false;
      }
      buckets := buckets - {bucket};
      ok := !lost;
    }

    method CreateVolume(r: Request) returns (response: Response)
      requires r.CreateRequest?
      modifies this
      ensures driver.MayDo(r, old(buckets), buckets)
      ensures reliable ==> (buckets, response) == driver.Serve(old(buckets), r)
      ensures response.Created? ==> response.volumeID == Sanitize(driver.sha1, r.name) && driver.Target(r) in buckets
      ensures forall b :: BucketNamed(r.secrets, Sanitize(driver.sha1, r.name), b) ==>
                SameBut(old(buckets), buckets, b) && (response.Created? ==> b in buckets)
    {
      var volumeID := Sanitize(driver.sha1, r.name);
      var bucketName := volumeID;
      if !driver.offers {
        return Failed;
      }
      if |volumeID| == 0 || !r.hasCapabilities {
        return Invalid;
      }
      var cfg := ConfigFrom(r.secrets);
      if !driver.accepts(cfg.endpoint) {
        return Failed;
      }
      if |cfg.bucket| != 0 {
        bucketName := cfg.bucket;
      }
      var ok, exists' := BucketExists(bucketName);
      if !ok {
        return Failed;
      }
      if !exists' {
        if cfg.provision {
          ok := CreateBucket(bucketName);
          if !ok {
            return Failed;
          }
        } else {
          return Failed;
        }
      }
      return Created(volumeID);
    }

    method DeleteVolume(r: Request) returns (response: Response)
      requires r.DeleteRequest?
      modifies this
      ensures driver.MayDo(r, old(buckets), buckets)
      ensures reliable ==> (buckets, response) == driver.Serve(old(buckets), r)
      ensures response.Deleted? && ConfigFrom(r.secrets).removeOnDelete ==> driver.Target(r) !in buckets
      ensures forall b :: BucketNamed(r.secrets, r.volumeID, b) ==>
                SameBut(old(buckets), buckets, b)
                && (response.Deleted? && ParseBool(Get(r.secrets, "remove-on-delete")) == Some(true) ==> b !in buckets)
    {
      var bucketName := r.volumeID;
      if |r.volumeID| == 0 {
        return Invalid;
      }
      if !driver.offers {
        return Failed;
      }
      var cfg := ConfigFrom(r.secrets);
      if !driver.accepts(cfg.endpoint) {
        return Failed;
      }
      if |cfg.bucket| != 0 {
        bucketName := cfg.bucket;
      }
      var ok, exists' := BucketExists(bucketName);
      if !ok {
        return Failed;
      }
      if exists' && cfg.removeOnDelete {
        ok := RemoveBucket(bucketName);
        if !ok {
          return Failed;
        }
      }
      return Deleted;
    }
  }

  // -------------------------------------------------------------- runs of the driver

  datatype Call = Call(request: Request, after: Buckets)

  function BucketsAt(first: Buckets, calls: seq<Call>, i: nat): Buckets
    requires i <= |calls|
  {
    if i == 0 then first else calls[i - 1].after
  }

  ghost predicate IsRun(d: Driver, first: Buckets, calls: seq<Call>) {
    forall i :: 0 <= i < |calls| ==> CallAt(d, first, calls, i)
  }

  ghost predicate CallAt(d: Driver, first: Buckets, calls: seq<Call>, i: nat)
    requires i < |calls|
  {
    d.MayDo(calls[i].request, BucketsAt(first, calls, i), calls[i].after)
  }

  predicate Removes(d: Driver, r: Request, bucket: string) {
    r.DeleteRequest? && ConfigFrom(r.secrets).removeOnDelete && d.Target(r) == bucket
  }

  predicate Targets(d: Driver, r: Request, bucket: string) { d.Target(r) == bucket }

  lemma CallKeeps(d: Driver, r: Request, b: Buckets, b': Buckets, bucket: string)
    requires d.MayDo(r, b, b')
    ensures bucket in b && !Removes(d, r, bucket) ==> bucket in b' && b'[bucket] == b[bucket]
    ensures bucket !in b && !Targets(d, r, bucket) ==> bucket !in b'
  {
    var target := d.Target(r);
    var cfg := ConfigFrom(r.secrets);
    match r
    case CreateRequest(_, _, _) => CreateKeeps(target, cfg.provision, b, b', bucket);
    case DeleteRequest(_, _) => DeleteKeeps(target, cfg.removeOnDelete, b, b', bucket);
  }

  lemma CreateKeeps(target: string, provision: bool, b: Buckets, b': Buckets, bucket: string)
    requires MayCreate(target, provision, b, b')
    ensures bucket in b ==> bucket in b' && b'[bucket] == b[bucket]
    ensures bucket !in b && target != bucket ==> bucket !in b'
  {
  }

  lemma DeleteKeeps(target: string, remove: bool, b: Buckets, b': Buckets, bucket: string)
    requires MayDelete(target, remove, b, b')
    ensures bucket in b && !(remove && target == bucket) ==> bucket in b' && b'[bucket] == b[bucket]
    ensures bucket !in b ==> bucket !in b'
  {
  }

  // In any sequence of calls, with the store failing at will, a bucket loses an object
  // or disappears only through a delete that targets it and asks for removal.
  lemma {:induction false} BucketsAreSafe(d: Driver, first: Buckets, calls: seq<Call>, n: nat, bucket: string)
    requires IsRun(d, first, calls) && n <= |calls| && bucket in first
    requires forall i :: 0 <= i < n ==> !Removes(d, calls[i].request, bucket)
    ensures bucket in BucketsAt(first, calls, n) && BucketsAt(first, calls, n)[bucket] == first[bucket]
  {
    if n > 0 {
      BucketsAreSafe(d, first, calls, n - 1, bucket);
      assert CallAt(d, first, calls, n - 1);
      CallKeeps(d, calls[n - 1].request, BucketsAt(first, calls, n - 1), calls[n - 1].after, bucket);
    }
  }

  // A bucket that no call targets does not come into being.
  lemma {:induction false} NoBucketFromNowhere(d: Driver, first: Buckets, calls: seq<Call>, n: nat, bucket: string)
    requires IsRun(d, first, calls) && n <= |calls| && bucket !in first
    requires forall i :: 0 <= i < n ==> !Targets(d, calls[i].request, bucket)
    ensures bucket !in BucketsAt(first, calls, n)
  {
    if n > 0 {
      NoBucketFromNowhere(d, first, calls, n - 1, bucket);
      assert CallAt(d, first, calls, n - 1);
      CallKeeps(d, calls[n - 1].request, BucketsAt(first, calls, n - 1), calls[n - 1].after, bucket);
    }
  }

  // With the same secrets, deleting the id that a create returned works on the bucket
  // the create chose.
  lemma SameTarget(d: Driver, name: string, secrets: Data)
    ensures d.Target(DeleteRequest(Sanitize(d.sha1, name), secrets)) == d.Target(CreateRequest(name, true, secrets))
  {
  }

  // Repeating a create changes nothing, and so does creating under the returned id.
  lemma CreateTwice(d: Driver, buckets: Buckets, name: string, secrets: Data)
    requires IsHexDigest(d.sha1)
    requires d.Serve(buckets, CreateRequest(name, true, secrets)).1.Created?
    ensures var (created, response) := d.Serve(buckets, CreateRequest(name, true, secrets));
            && d.Serve(created, CreateRequest(name, true, secrets)) == (created, response)
            && d.Serve(created, CreateRequest(response.volumeID, true, secrets)) == (created, response)
  {
    SanitizeIdempotent(d.sha1, name);
    assert d.Target(CreateRequest(Sanitize(d.sha1, name), true, secrets)) == d.Target(CreateRequest(name, true, secrets));
  }

  lemma DeleteTwice(d: Driver, buckets: Buckets, id: string, secrets: Data)
    ensures var (deleted, response) := d.Serve(buckets, DeleteRequest(id, secrets));
            d.Serve(deleted, DeleteRequest(id, secrets)) == (deleted, response)
  {
  }

  // A create and the delete of the id it returned leave the store as it was, but for
  // the bucket that the create chose: it is there if and only if the secrets do not ask
  // for its removal.
  lemma Lifecycle(d: Driver, buckets: Buckets, name: string, secrets: Data)
    requires d.Serve(buckets, CreateRequest(name, true, secrets)).1.Created?
    ensures var (created, response) := d.Serve(buckets, CreateRequest(name, true, secrets));
            var (deleted, answer) := d.Serve(created, DeleteRequest(response.volumeID, secrets));
            var bucket := d.Target(CreateRequest(name, true, secrets));
            && answer == Deleted
            && (bucket in deleted <==> !ConfigFrom(secrets).removeOnDelete)
            && deleted - {bucket} == buckets - {bucket}
            && (bucket in buckets && bucket in deleted ==> deleted[bucket] == buckets[bucket])
  {
    SameTarget(d, name, secrets);
  }

  // ------------------------------------------------- calls in terms of the secrets

  // The lower-case name, a letter at a time.
  predicate IsLowerCase(name: string, lower: string) {
    && |lower| == |name|
    && forall i :: 0 <= i < |name| ==>
         lower[i] == if 'A' <= name[i] <= 'Z' then ((name[i] as int) + 32) as char else name[i]
  }

  // What a name is kept as: its lower-case form, or the digest of that if it is too long.
  lemma SanitizeMeaning(sha1: string -> string, name: string, lower: string)
    requires IsLowerCase(name, lower)
    ensures Sanitize(sha1, name) == if |name| <= 63 then lower else sha1(lower)
  {
    assert ToLower(name) == lower;
  }

  // The answer to a create when the store does not fail, and what it leaves.
  lemma CreateMeaning(d: Driver, buckets: Buckets, name: string, caps: bool, secrets: Data, lower: string, bucket: string)
    requires IsHexDigest(d.sha1) && IsLowerCase(name, lower)
    requires BucketNamed(secrets, if |name| <= 63 then lower else d.sha1(lower), bucket)
    ensures var (after, answer) := d.Serve(buckets, CreateRequest(name, caps, secrets));
            && (answer.Created? <==>
                  && d.offers && name != "" && caps && d.accepts(Get(secrets, "endpoint"))
                  && (bucket in buckets || ParseBool(Get(secrets, "provision")) == Some(true)))
            && (answer.Created? ==> answer.volumeID == if |name| <= 63 then lower else d.sha1(lower))
            && after == (if answer.Created? && bucket !in buckets then buckets[bucket := {}] else buckets)
  {
    SanitizeMeaning(d.sha1, name, lower);
    SanitizeIdempotent(d.sha1, name);
  }

  // The answer to a delete when the store does not fail, and what it leaves.
  lemma DeleteMeaning(d: Driver, buckets: Buckets, volumeID: string, secrets: Data, bucket: string)
    requires BucketNamed(secrets, volumeID, bucket)
    ensures var (after, answer) := d.Serve(buckets, DeleteRequest(volumeID, secrets));
            && (answer.Deleted? <==> d.offers && volumeID != "" && d.accepts(Get(secrets, "endpoint")))
            && after == (if answer.Deleted? && ParseBool(Get(secrets, "remove-on-delete")) == Some(true)
                         then buckets - {bucket} else buckets)
  {
  }
}
