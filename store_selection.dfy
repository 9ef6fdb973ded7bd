/**
 * The startup choice of a backend from two optional environment strings.
 * Reading the environment and logging the choice are not part of this model.
 */
module StoreSelection {
  import opened Wrappers

  datatype Backend = Memory | Redis(url: string)

  /** Python truthiness of an optional string: present and non-empty. */
  predicate Truthy(s: Option<string>)
  {
    s.Some? && |s.value| > 0
  }

  /** Python's `a or b`: the first operand when it is truthy, else the second. */
  function Or(a: Option<string>, b: Option<string>): (r: Option<string>)
    ensures r == a || r == b
    ensures Truthy(r) <==> Truthy(a) || Truthy(b)
  {
    if Truthy(a) then a else b
  }

  /**
   * The networked backend exactly when one of the two URLs is a non-empty
   * string, the first one taking precedence; the in-process store otherwise.
   */
  function SelectBackend(redisUrl: Option<string>, redisUri: Option<string>): (b: Backend)
    ensures b.Redis? <==> Truthy(redisUrl) || Truthy(redisUri)
    ensures Truthy(redisUrl) ==> b == Redis(redisUrl.value)
    ensures !Truthy(redisUrl) && Truthy(redisUri) ==> b == Redis(redisUri.value)
    ensures b.Redis? ==> |b.url| > 0
  {
    var url := Or(redisUrl, redisUri);
    if Truthy(url) then Redis(url.value) else Memory
  }
}
