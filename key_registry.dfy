/**
 * The process-wide registry of limiter keys whose rate has already been configured
 * (RateLimiterKeyUtil). Asking about a key claims it: the first question inserts the key
 * and answers false, every later question answers true and changes nothing.
 */
module KeyRegistry {

  /** No key occurs twice. */
  ghost predicate NoDuplicates(s: seq<string>) {
    forall i, j :: 0 <= i < j < |s| ==> s[i] != s[j]
  }

  /** The list after `contains(key)`: the key is appended exactly when it was missing. */
  function Claimed(list: seq<string>, key: string): (r: seq<string>)
    ensures key in r
    ensures forall x :: x in r <==> x in list || x == key
    ensures list <= r && |r| <= |list| + 1
    ensures |r| == |list| <==> key in list
    ensures NoDuplicates(list) ==> NoDuplicates(r)
  {
    if key in list then list else list + [key]
  }

  /** A second claim of the same key finds it present and leaves the list as the first claim left it. */
  lemma ClaimIdempotent(list: seq<string>, key: string)
    ensures key in Claimed(list, key)
    ensures Claimed(Claimed(list, key), key) == Claimed(list, key)
  {
  }

  /** The answers `contains` gives to the keys asked in order, starting from `list`. */
  function Responses(list: seq<string>, keys: seq<string>): (answers: seq<bool>)
    ensures |answers| == |keys|
    decreases |keys|
  {
    if keys == [] then [] else [keys[0] in list] + Responses(Claimed(list, keys[0]), keys[1..])
  }

  /** The list after the keys have been asked in order, starting from `list`. */
  function Registered(list: seq<string>, keys: seq<string>): (r: seq<string>)
    ensures forall x :: x in r <==> x in list || x in keys
    ensures list <= r
    ensures NoDuplicates(list) ==> NoDuplicates(r)
    decreases |keys|
  {
    if keys == [] then list
    else
      var rest := Registered(Claimed(list, keys[0]), keys[1..]);
      assert forall x :: x in keys <==> x == keys[0] || x in keys[1..];
      rest
  }

  /**
   * The i-th answer is false exactly when the i-th key was neither registered at the start
   * nor asked earlier in the sequence: a key's first use is claimed once.
   */
  lemma {:induction false} AnswerIsFalseOnFirstUseOnly(list: seq<string>, keys: seq<string>, i: nat)
    requires i < |keys|
    ensures Responses(list, keys)[i] == (keys[i] in list || keys[i] in keys[..i])
    decreases i
  {
    if i > 0 {
      var rest := keys[1..];
      AnswerIsFalseOnFirstUseOnly(Claimed(list, keys[0]), rest, i - 1);
      assert rest[i - 1] == keys[i];
      assert keys[..i] == [keys[0]] + rest[..i - 1];
    }
  }

  /** Of two calls with the same key, the later one answers true: at most one call per key answers false. */
  lemma AtMostOneFirstUse(list: seq<string>, keys: seq<string>, i: nat, j: nat)
    requires i < j < |keys| && keys[i] == keys[j]
    ensures Responses(list, keys)[j]
  {
    AnswerIsFalseOnFirstUseOnly(list, keys, j);
    assert keys[..j][i] == keys[i];
  }

  /** Asking the same key twice in a row answers false and then true when it was absent. */
  lemma TwiceInARow(list: seq<string>, key: string)
    requires key !in list
    ensures Responses(list, [key, key]) == [false, true]
  {
    AnswerIsFalseOnFirstUseOnly(list, [key, key], 0);
    AnswerIsFalseOnFirstUseOnly(list, [key, key], 1);
  }

  /** RateLimiterKeyUtil: the static `list` and its check-and-insert `contains`. */
  class RateLimiterKeyUtil {
    var list: seq<string>

    /** The list starts empty. */
    constructor ()
      ensures list == []
    {
      list := [];
    }

    /**
     * `contains(data)`: answers whether the key was already present; when it was not,
     * appends it. Existing entries keep their positions and the list never shrinks.
     */
    method Contains(data: string) returns (present: bool)
      modifies this
      ensures present == (data in old(list))
      ensures !present ==> list == old(list) + [data]
      ensures present ==> list == old(list)
      ensures list == Claimed(old(list), data)
    {
      if data !in list {
        list := list + [data];
        return false;
      }
      return true;
    }
  }
}
