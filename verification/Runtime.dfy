/** Vocabulary shared by every component of the runner model. */
module Runtime {

  /** A request id: the engine's own string, which the runner only ever compares. */
  datatype ReqId = ReqId(name: string)

  /** A token id. Ids come from int32 tensors that are copied and compared, never added to. */
  type Token = int

  /** Padding marker of a draft column and of a scheduled lookahead reservation. */
  const PLACEHOLDER_TOKEN_ID: Token := -1

  datatype Option<+T> = None | Some(value: T)

  datatype Result<+T, +E> = Ok(value: T) | Err(error: E)

  /** `dict.get(key, default)`. */
  function GetOr<K, V>(m: map<K, V>, key: K, default: V): V {
    if key in m then m[key] else default
  }

  function Min(a: int, b: int): int {
    if a <= b then a else b
  }

  function Max(a: int, b: int): int {
    if a >= b then a else b
  }

  lemma Regroup<T>(a: seq<T>, b: seq<T>, c: seq<T>)
    ensures a + b + c == a + (b + c)
  {
  }

  /** No two positions of the sequence hold the same value. */
  ghost predicate Distinct<T>(s: seq<T>) {
    forall i, j :: 0 <= i < j < |s| ==> s[i] != s[j]
  }
}
