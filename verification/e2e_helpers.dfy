/** The pure helpers of the end-to-end test: reading TLS credentials out of a
    fetched secret, looking for a pod by name prefix, and the random name
    suffix. Calls to the API server are parameters: the value the call
    returned, or a client whose calls are functions. */
module E2eHelpers {
  import opened Wrappers
  import opened CoreV1

  /** Why a helper gave up. */
  datatype Failure =
    | ApiFailure(reason: string)
    | MissingDataKey(secretName: string, key: string)
    | NoCertData(secretName: string)
    | NoKeyData(secretName: string)
    | CryptoFailure(message: string)
    | ExpectedOneCertificate
    | UnrecognizedKey

  /** `getTLSCredsFromSecret` after the fetch: the cert data then the key data
      must each be present and non-empty; the first check that fails names the
      error. */
  function GetTLSCredsFromSecret<V>(fetched: Result<Secret<V>, Failure>, certDataKey: string, keyDataKey: string)
    : (r: Result<(seq<V>, seq<V>), Failure>)
    ensures fetched.Err? ==> r == Err(fetched.error)
    ensures fetched.Ok? ==>
      var d := DataOf(fetched.value);
      (r.Ok? <==> certDataKey in d && d[certDataKey] != [] && keyDataKey in d && d[keyDataKey] != [])
    ensures r.Ok? ==> r.value == (DataOf(fetched.value)[certDataKey], DataOf(fetched.value)[keyDataKey])
    ensures fetched.Ok? && certDataKey !in DataOf(fetched.value) ==>
      r == Err(MissingDataKey(fetched.value.name, certDataKey))
    ensures fetched.Ok? && certDataKey in DataOf(fetched.value) && DataOf(fetched.value)[certDataKey] == [] ==>
      r == Err(NoCertData(fetched.value.name))
    ensures fetched.Ok? && certDataKey in DataOf(fetched.value) && DataOf(fetched.value)[certDataKey] != []
            && keyDataKey !in DataOf(fetched.value) ==>
      r == Err(MissingDataKey(fetched.value.name, keyDataKey))
    ensures fetched.Ok? && certDataKey in DataOf(fetched.value) && DataOf(fetched.value)[certDataKey] != []
            && keyDataKey in DataOf(fetched.value) && DataOf(fetched.value)[keyDataKey] == [] ==>
      r == Err(NoKeyData(fetched.value.name))
  {
    var secret :- fetched;
    var data := DataOf(secret);
    if certDataKey !in data then Err(MissingDataKey(secret.name, certDataKey))
    else if |data[certDataKey]| == 0 then Err(NoCertData(secret.name))
    else if keyDataKey !in data then Err(MissingDataKey(secret.name, keyDataKey))
    else if |data[keyDataKey]| == 0 then Err(NoKeyData(secret.name))
    else Ok((data[certDataKey], data[keyDataKey]))
  }

  /** `strings.HasPrefix`: `s` is at least as long as `prefix` and starts with it. */
  predicate HasPrefix(s: string, prefix: string) {
    |s| >= |prefix| && s[..|prefix|] == prefix
  }

  lemma HasPrefixIsSequencePrefix(s: string, prefix: string)
    ensures HasPrefix(s, prefix) <==> prefix <= s
  {
  }

  /** The part of a clientset the pod search uses: listing the names of the
      pods in a namespace. */
  datatype Client = Client(listPods: string -> Result<seq<string>, Failure>)

  /** Some pod name in the list starts with `prefix`. */
  ghost predicate SomeHasPrefix(names: seq<string>, prefix: string) {
    exists i :: 0 <= i < |names| && HasPrefix(names[i], prefix)
  }

  /** `hasPodWithPrefixName`: false for a nil client, an empty prefix or
      namespace, or a failed list; otherwise whether some pod in the namespace
      has a name starting with the prefix. */
  method HasPodWithPrefixName(client: Option<Client>, name: string, namespace: string) returns (found: bool)
    ensures found <==>
      && client.Some? && name != [] && namespace != []
      && client.value.listPods(namespace).Ok?
      && SomeHasPrefix(client.value.listPods(namespace).value, name)
  {
    if client.None? || |name| == 0 || |namespace| == 0 {
      return false;
    }
    var pods := client.value.listPods(namespace);
    if pods.Err? {
      return false;
    }
    var names := pods.value;
    var i := 0;
    while i < |names|
      invariant 0 <= i <= |names|
      invariant forall j :: 0 <= j < i ==> !HasPrefix(names[j], name)
    {
      if HasPrefix(names[i], name) {
        return true;
      }
      i := i + 1;
    }
    return false;
  }

  /** The alphabet of random suffixes: lower-case ASCII letters then digits. */
  const Characters: string := "abcdefghijklmnopqrstuvwxyz0123456789"

  /** The i-th character of the alphabet, by arithmetic on code points. */
  function AlphabetAt(i: int): char
    requires 0 <= i < 36
  {
    if i < 26 then ('a' as int + i) as char else ('0' as int + i - 26) as char
  }

  /** The alphabet is the 26 lower-case letters followed by the 10 digits. */
  lemma CharactersLayout()
    ensures |Characters| == 36
    ensures forall i :: 0 <= i < 36 ==> Characters[i] == AlphabetAt(i)
  {
  }

  /** Its 36 characters are distinct, so every draw picks its own character,
      and they are exactly the letters and digits. */
  lemma CharactersAlphabet()
    ensures forall i, j :: 0 <= i < |Characters| && 0 <= j < |Characters| && i != j ==> Characters[i] != Characters[j]
    ensures forall c :: c in Characters <==> ('a' <= c <= 'z' || '0' <= c <= '9')
  {
    CharactersLayout();
    forall c | 'a' <= c <= 'z' || '0' <= c <= '9'
      ensures c in Characters
    {
      var i := if 'a' <= c <= 'z' then c as int - 'a' as int else 26 + c as int - '0' as int;
      assert Characters[i] == AlphabetAt(i) == c;
    }
  }

  /** `randSeq(n)`: `n` runes, the i-th drawn by the i-th call of
      `rand.Intn(36)`, whose results are passed in as `draws`. */
  method RandSeq(n: int, draws: seq<int>) returns (s: string)
    requires 0 <= n <= |draws|
    requires forall i :: 0 <= i < |draws| ==> 0 <= draws[i] < |Characters|
    ensures |s| == n
    ensures forall i :: 0 <= i < n ==> s[i] == Characters[draws[i]]
    ensures forall i :: 0 <= i < n ==> s[i] in Characters
  {
    s := [];
    var i := 0;
    while i < n
      invariant 0 <= i <= n
      invariant |s| == i
      invariant forall j :: 0 <= j < i ==> s[j] == Characters[draws[j]]
    {
      s := s + [Characters[draws[i]]];
      i := i + 1;
    }
  }
}
