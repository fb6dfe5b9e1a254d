/** The controller that copies the service CA bundle into every
    service-account token secret (`saTokenCABundleInjectionController`). A
    reconciliation looks the secret up by key and then either leaves it alone
    or issues exactly one update of a copy with the bundle set. */
module SaTokenCaBundle {
  import opened Wrappers
  import opened GoInt
  import opened CoreV1

  /** `corev1.SecretTypeServiceAccountToken`. */
  const SecretTypeServiceAccountToken: string := "kubernetes.io/service-account-token"

  /** `api.InjectionDataKey`, the data key the bundle is written under. */
  const InjectionDataKey: string := "service-ca.crt"

  /** The lister's view of the cache, keyed by (namespace, name). */
  type SecretCache = map<(string, string), Secret<Byte>>

  /** `secretIsSAToken`: the event filter. Whether a secret passes depends on
      its type alone, never on its identity or data. */
  function SecretIsSAToken(s: Secret<Byte>): (isToken: bool)
    ensures isToken <==> s.secretType == "kubernetes.io/service-account-token"
  {
    s.secretType == SecretTypeServiceAccountToken
  }

  /** The add-event filter: only token secrets reach the queue. */
  function AddFilter(s: Secret<Byte>): (admit: bool)
    ensures admit <==> s.secretType == SecretTypeServiceAccountToken
  {
    SecretIsSAToken(s)
  }

  /** The update-event filter, which judges the new object alone: the old one
      never matters, and the new one passes exactly when it would pass as an
      added object. */
  function UpdateFilter(previous: Secret<Byte>, cur: Secret<Byte>): (admit: bool)
    ensures admit <==> AddFilter(cur)
    ensures admit <==> cur.secretType == SecretTypeServiceAccountToken
  {
    SecretIsSAToken(cur)
  }

  /** `Key`: the cached secret, or a not-found error. */
  function Key(cache: SecretCache, namespace: string, name: string): (r: Result<Secret<Byte>, LookupError>)
    ensures r.Ok? <==> (namespace, name) in cache
    ensures r.Ok? ==> r.value == cache[(namespace, name)]
    ensures r.Err? ==> r.error == NotFound(namespace, name)
  {
    if (namespace, name) in cache then Ok(cache[(namespace, name)]) else Err(NotFound(namespace, name))
  }

  /** The bundle is already in place, byte for byte. */
  predicate HasBundle(s: Secret<Byte>, ca: Bytes) {
    InjectionDataKey in DataOf(s) && DataOf(s)[InjectionDataKey] == ca
  }

  /** `Sync`: the update it sends, or None when it sends nothing. It sends
      nothing exactly when the bundle is already in place. Otherwise the update
      is a copy of the input (the cached object is left as it was) with the
      bundle under the injection key, every other key and value kept, no other
      key added, and the same identity and type. */
  function Sync(ca: Bytes, secret: Secret<Byte>): (update: Option<Secret<Byte>>)
    ensures update.None? <==> HasBundle(secret, ca)
    ensures update.Some? ==>
      var u := update.value;
      && u.data.Some?
      && u.namespace == secret.namespace && u.name == secret.name && u.secretType == secret.secretType
      && DataOf(u).Keys == DataOf(secret).Keys + {InjectionDataKey}
      && DataOf(u)[InjectionDataKey] == ca
      && forall k :: k in DataOf(secret) && k != InjectionDataKey ==> DataOf(u)[k] == DataOf(secret)[k]
  {
    if InjectionDataKey in DataOf(secret) && DataOf(secret)[InjectionDataKey] == ca then None
    else
      var data := if secret.data.None? then map[] else secret.data.value;
      Some(secret.(data := Some(data[InjectionDataKey := ca])))
  }

  /** A secret with a nil data map is written with exactly the bundle. */
  lemma SyncNilData(ca: Bytes, secret: Secret<Byte>)
    requires secret.data.None?
    ensures Sync(ca, secret) == Some(secret.(data := Some(map[InjectionDataKey := ca])))
  {
  }

  /** Syncing what was written writes nothing more. */
  lemma SyncIdempotent(ca: Bytes, secret: Secret<Byte>)
    ensures Sync(ca, secret).Some? ==> Sync(ca, Sync(ca, secret).value).None?
  {
  }

  /** The update the controller writes comes back to it as an update event.
      That event passes the filter exactly when the synced secret did, and the
      sync it triggers writes nothing, so the controller does not loop on its
      own writes. */
  lemma SyncedSecretStaysAdmitted(ca: Bytes, secret: Secret<Byte>)
    ensures Sync(ca, secret).Some? ==>
      && (UpdateFilter(secret, Sync(ca, secret).value) <==> AddFilter(secret))
      && Sync(ca, Sync(ca, secret).value).None?
  {
  }

  /** One reconciliation as the unit test drives it: `Key`, then `Sync` when
      the lookup succeeded. The result is the list of client write actions. */
  function Reconcile(cache: SecretCache, ca: Bytes, namespace: string, name: string): (writes: seq<Secret<Byte>>)
    ensures |writes| <= 1
  {
    match Key(cache, namespace, name)
    case Err(_) => []
    case Ok(secret) =>
      match Sync(ca, secret)
      case None => []
      case Some(u) => [u]
  }

  /** The unit test's table, for every input: a missing secret or one that
      already holds the same bundle produces no action; otherwise exactly one
      update, which holds the bundle. */
  lemma ReconcileActions(cache: SecretCache, ca: Bytes, namespace: string, name: string)
    ensures (namespace, name) !in cache ==> Reconcile(cache, ca, namespace, name) == []
    ensures (namespace, name) in cache && HasBundle(cache[(namespace, name)], ca) ==>
      Reconcile(cache, ca, namespace, name) == []
    ensures (namespace, name) in cache && !HasBundle(cache[(namespace, name)], ca) ==>
      |Reconcile(cache, ca, namespace, name)| == 1
      && HasBundle(Reconcile(cache, ca, namespace, name)[0], ca)
  {
  }
}
