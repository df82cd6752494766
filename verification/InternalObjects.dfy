// What the objects of a COS dataset hold when the controller has made them.
module InternalObjects {
  import opened GoText
  import opened Kube
  import opened InternalController

  // The access keys come from a Secret only if one is named in the dataset's own
  // namespace, and from the specification only if none is.
  predicate KeysFromSecret(id: Id, local: Data) {
    "secret-name" in local && ("secret-namespace" in local ==> local["secret-namespace"] == id.namespace)
  }

  predicate KeysAre(id: Id, local: Data, secrets: map<string, Secret>, access: string, secret: string) {
    if KeysFromSecret(id, local) then
      && local["secret-name"] in secrets
      && var data := secrets[local["secret-name"]].data;
         "accessKeyID" in data && "secretAccessKey" in data && data["accessKeyID"] == access && data["secretAccessKey"] == secret
    else
      && "accessKeyID" in local && "secretAccessKey" in local
      && local["accessKeyID"] == access && local["secretAccessKey"] == secret
  }

  // An object that is to be created for.
  predicate Creating(w: World) {
    w.di.Some? && HasFinalizer(w) && !Marked(w)
  }

  // The bucket of the specification, cut at its first slash.
  predicate BucketCut(local: Data, bucket: string, folder: string) {
    && '/' !in bucket
    && Get(local, "bucket") == (if '/' in Get(local, "bucket") then bucket + "/" + folder else bucket)
    && ('/' !in Get(local, "bucket") ==> folder == "")
  }

  predicate PlaceIn(local: Data, data: Data) {
    && "endpoint" in data && "region" in data && "bucket" in data && "folder" in data
    && data["endpoint"] == Get(local, "endpoint") && data["region"] == Get(local, "region")
    && BucketCut(local, data["bucket"], data["folder"])
  }

  lemma CredentialsMeaning(id: Id, local: Data, secrets: map<string, Secret>, access: string, secret: string)
    ensures Credentials(id, local, secrets) == Some(Keys(access, secret)) <==> KeysAre(id, local, secrets, access, secret)
  {
  }

  // With the keys to be had, an undisturbed reconcile leaves ConfigMap, PVC and Secret;
  // without them it does nothing.
  lemma ObjectsAreMade(id: Id, w: World)
    requires Creating(w)
    ensures var w', local := ReconcileInternal(id, w), w.di.value.local;
            if exists access, secret :: KeysAre(id, local, w.secrets, access, secret)
            then w'.di == w.di && w'.configMap.Some? && w'.pvc.Some? && id.name in w'.secrets
            else w' == w
  {
    var local := w.di.value.local;
    if Credentials(id, local, w.secrets).Some? {
      var keys := Credentials(id, local, w.secrets).value;
      CredentialsMeaning(id, local, w.secrets, keys.accessKeyID, keys.secretAccessKey);
    } else if access, secret :| KeysAre(id, local, w.secrets, access, secret) {
      CredentialsMeaning(id, local, w.secrets, access, secret);
    }
  }

  lemma PlaceInConfigMap(di: Internal)
    ensures PlaceIn(di.local, ConfigData(di))
    ensures ConfigData(di).Keys == {"endpoint", "region", "bucket", "folder"}
  {
  }

  lemma PlaceInSecret(di: Internal, keys: Keys)
    ensures PlaceIn(di.local, SecretData(di, keys))
    ensures var data := SecretData(di, keys);
            && data["bucket"] == ConfigData(di)["bucket"] && data["folder"] == ConfigData(di)["folder"]
  {
  }

  // A ConfigMap that was missing gets exactly the four keys that say where the data is; an
  // existing one is left alone.
  lemma ConfigMapMeaning(id: Id, w: World)
    requires Creating(w)
    ensures var w' := ReconcileInternal(id, w);
            && (w.configMap.Some? ==> w'.configMap == w.configMap)
            && (w.configMap.None? && w'.configMap.Some? ==>
                  && w'.configMap.value.Keys == {"endpoint", "region", "bucket", "folder"}
                  && PlaceIn(w.di.value.local, w'.configMap.value))
  {
    PlaceInConfigMap(w.di.value);
  }

  // A new PVC is ReadOnlyMany if and only if "readonly" parses as true.
  lemma ClaimMeaning(id: Id, w: World)
    requires Creating(w)
    ensures var w' := ReconcileInternal(id, w);
            && (w.pvc.Some? ==> w'.pvc == w.pvc)
            && (w.pvc.None? && w'.pvc.Some? ==>
                  && w'.pvc.value.origin == Operator && !w'.pvc.value.deleting
                  && (w'.pvc.value.readOnlyMany <==> ParseBool(Get(w.di.value.local, "readonly")) == Some(true)))
  {
    var readonly := BooleanString(w.di.value.local, "readonly");
    assert readonly == "true" <==> ParseBool(Get(w.di.value.local, "readonly")) == Some(true);
  }

  // A new Secret holds the keys and the same place as a new ConfigMap, the options as
  // booleans, and what to extract.
  lemma SecretMeaning(id: Id, w: World, access: string, secret: string)
    requires Creating(w) && id.name !in w.secrets && KeysAre(id, w.di.value.local, w.secrets, access, secret)
    ensures var w', di := ReconcileInternal(id, w), w.di.value;
            && id.name in w'.secrets && w'.secrets == w.secrets[id.name := w'.secrets[id.name]]
            && var data := w'.secrets[id.name].data;
            && Get(data, "accessKeyID") == access && Get(data, "secretAccessKey") == secret
            && PlaceIn(di.local, data)
            && Get(data, "extract") == (if di.extract == "" then "false" else di.extract)
            && IsFlag(data, "readonly", di.local, "readonly") && IsFlag(data, "provision", di.local, "provision")
            && IsFlag(data, "remove-on-delete", di.labels, "remove-on-delete")
  {
    var di := w.di.value;
    CredentialsMeaning(id, di.local, w.secrets, access, secret);
    SecretFlags(di, Keys(access, secret));
    PlaceInSecret(di, Keys(access, secret));
    ReconcileMakesSecret(id, w, Keys(access, secret));
  }

  lemma ReconcileMakesSecret(id: Id, w: World, keys: Keys)
    requires Creating(w) && id.name !in w.secrets && Credentials(id, w.di.value.local, w.secrets) == Some(keys)
    ensures ReconcileInternal(id, w).secrets == w.secrets[id.name := Secret(Operator, SecretData(w.di.value, keys))]
  {
  }

  // The text "true" where the option parses as true, and "false" otherwise.
  predicate IsFlag(data: Data, key: string, from: Data, option: string) {
    Get(data, key) == if ParseBool(Get(from, option)) == Some(true) then "true" else "false"
  }

  lemma FlagText(from: Data, option: string)
    ensures BooleanString(from, option) == if ParseBool(Get(from, option)) == Some(true) then "true" else "false"
  {
  }

  lemma SecretFlags(di: Internal, keys: Keys)
    ensures var data := SecretData(di, keys);
            && Get(data, "accessKeyID") == keys.accessKeyID && Get(data, "secretAccessKey") == keys.secretAccessKey
            && Get(data, "extract") == (if di.extract == "" then "false" else di.extract)
            && IsFlag(data, "readonly", di.local, "readonly") && IsFlag(data, "provision", di.local, "provision")
            && IsFlag(data, "remove-on-delete", di.labels, "remove-on-delete")
  {
    FlagText(di.local, "readonly");
    FlagText(di.local, "provision");
    FlagText(di.labels, "remove-on-delete");
  }

  predicate SamePlace(a: Data, b: Data) {
    && Get(a, "endpoint") == Get(b, "endpoint") && Get(a, "region") == Get(b, "region")
    && Get(a, "bucket") == Get(b, "bucket") && Get(a, "folder") == Get(b, "folder")
  }

  lemma DataAgree(di: Internal, keys: Keys)
    ensures SamePlace(ConfigData(di), SecretData(di, keys))
  {
  }

  lemma ReconcileMakesConfigMap(id: Id, w: World)
    requires Creating(w) && w.configMap.None? && ReconcileInternal(id, w).configMap.Some?
    ensures ReconcileInternal(id, w).configMap.value == ConfigData(w.di.value)
    ensures Credentials(id, w.di.value.local, w.secrets).Some?
  {
  }

  // A new ConfigMap and a new Secret agree on where the data is.
  lemma PlacesAgree(id: Id, w: World)
    requires Creating(w) && w.configMap.None? && id.name !in w.secrets
    ensures var w' := ReconcileInternal(id, w);
            w'.configMap.Some? ==> id.name in w'.secrets && SamePlace(w'.configMap.value, w'.secrets[id.name].data)
  {
    if ReconcileInternal(id, w).configMap.Some? {
      ReconcileMakesConfigMap(id, w);
      var keys := Credentials(id, w.di.value.local, w.secrets).value;
      ReconcileMakesSecret(id, w, keys);
      DataAgree(w.di.value, keys);
    }
  }

  // No keys are ever taken from a Secret when the specification names another namespace:
  // without keys of its own the dataset gets no objects, whatever Secrets there are.
  lemma ForeignSecretIsIgnored(id: Id, w: World)
    requires Creating(w)
    requires var local := w.di.value.local;
             "secret-namespace" in local && local["secret-namespace"] != id.namespace
    ensures var w', local := ReconcileInternal(id, w), w.di.value.local;
            if "accessKeyID" in local && "secretAccessKey" in local
            then id.name !in w.secrets ==>
                   && id.name in w'.secrets
                   && Get(w'.secrets[id.name].data, "accessKeyID") == local["accessKeyID"]
                   && Get(w'.secrets[id.name].data, "secretAccessKey") == local["secretAccessKey"]
            else w' == w
  {
    var local := w.di.value.local;
    ObjectsAreMade(id, w);
    if "accessKeyID" in local && "secretAccessKey" in local && id.name !in w.secrets {
      SecretMeaning(id, w, local["accessKeyID"], local["secretAccessKey"]);
    }
  }
}
