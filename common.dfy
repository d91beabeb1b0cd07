/** Values shared by the account-profile model: optional values, account
    summaries as the API returns them, JavaScript truthiness of optional
    strings, and order-preserving subsequences. */
module Common {

  /** A value that may be `undefined` or `null` on the JavaScript side. */
  datatype Option<+T> = None | Some(value: T)

  /** An account summary as it appears in a page of followers, a list of
      familiar followers or a search result. Only `id` is ever compared. */
  datatype Account = Account(id: string, acct: string)

  /** JavaScript truthiness of a string that may be absent:
      `undefined`, `null` and `""` are falsy, every other string is truthy. */
  predicate Truthy(s: Option<string>)
  {
    s.Some? && s.value != ""
  }

  /** `s` ends with `suffix`; a regular expression `/suffix$/` without the
      multiline flag matches exactly these strings. */
  predicate EndsWith(s: string, suffix: string)
  {
    |suffix| <= |s| && s[|s| - |suffix|..] == suffix
  }

  /** `r` is obtained from `s` by deleting elements, keeping the order of the rest. */
  ghost predicate Subsequence<T>(r: seq<T>, s: seq<T>)
    decreases |s|
  {
    if r == [] then true
    else if s == [] then false
    else (r[0] == s[0] && Subsequence(r[1..], s[1..])) || Subsequence(r, s[1..])
  }

  /** No two accounts of `s` share an id. */
  predicate DistinctIds(s: seq<Account>)
  {
    forall i, j :: 0 <= i < j < |s| ==> s[i].id != s[j].id
  }

  /** Some account of `accounts` has id `id` (the `some(familiar => familiar.id === account.id)` test). */
  predicate HasId(accounts: seq<Account>, id: string)
  {
    exists a :: a in accounts && a.id == id
  }
}
