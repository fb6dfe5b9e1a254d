/** The Kubernetes API objects the helpers and controllers share. */
module CoreV1 {
  import opened Wrappers

  /** A core/v1 Secret. `data` is None when the Go map is nil: reading it then
      behaves like reading an empty map (`DataOf`), and only writing into it
      differs. `V` is the element type of the stored values: bytes, or PEM
      blocks where a value is PEM text. */
  datatype Secret<V> = Secret(namespace: string, name: string, secretType: string, data: Option<map<string, seq<V>>>)

  /** The secret's data as a read sees it. */
  function DataOf<V>(s: Secret<V>): map<string, seq<V>> {
    s.data.GetOr(map[])
  }

  /** The error a lister's `Get` returns for an object it does not hold; a
      cluster-scoped object has the empty namespace. */
  datatype LookupError = NotFound(namespace: string, name: string)
}
