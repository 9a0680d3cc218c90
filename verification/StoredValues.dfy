// Reading a predicate as the JSON decoder does: what is missing or of another
// kind reads as the zero value.

module StoredValues {
  import opened Prelude
  import opened OpaqueToken
  import D = Dgraph

  function TextOf(v: Option<D.Value>): string {
    if v.Some? && v.value.Text? then v.value.text else ""
  }

  function TextsOf(v: Option<D.Value>): set<string> {
    if v.Some? && v.value.Texts? then v.value.items else {}
  }

  function DigestOf(v: Option<D.Value>): Digest {
    if v.Some? && v.value.Hashed? then v.value.digest else NoDigest
  }

  function InstantOf(v: Option<D.Value>): int {
    if v.Some? && v.value.Instant? then v.value.at else 0
  }

  function NumberOf(v: Option<D.Value>): int {
    if v.Some? && v.value.Number? then v.value.number else 0
  }

  function MaybeInstant(v: Option<D.Value>): Option<int> {
    if v.Some? && v.value.Instant? then Some(v.value.at) else None
  }
}
