/**
 * A decoded JSON document as Python holds it after `response.json()`, and the
 * few Python operations the weather helpers apply to it: `key in value`,
 * `value[key]`, `value[i]`, iteration and `str.startswith`. Each operation
 * returns the value or the exception Python raises.
 *
 * Numbers are of an opaque type `N`: they are only copied, never computed on.
 * An object lists its entries in insertion order, as a Python dict does;
 * keys of a decoded object are distinct, and lookup takes the first entry.
 */
module PyJson {
  import opened Wrappers

  datatype Json<N> =
    | Null
    | Bool(b: bool)
    | Number(n: N)
    | Str(s: string)
    | Array(items: seq<Json<N>>)
    | Object(entries: seq<(string, Json<N>)>)

  /** The exceptions the helpers can raise. */
  datatype PyError =
    | ValueError(message: string)
    | KeyError(key: string)
    | TypeError
    | AttributeError
    | IndexError

  /** `t in s` for two strings. */
  predicate IsSubstring(t: string, s: string)
  {
    t <= s || (s != [] && IsSubstring(t, s[1..]))
  }

  /** `t` occurs in `s` starting at index `i`. */
  predicate OccursAt(t: string, s: string, i: nat)
  {
    i + |t| <= |s| && s[i..i + |t|] == t
  }

  /** The search that `in` performs finds `t` exactly when it occurs somewhere in `s`. */
  lemma {:induction false} SubstringOccurs(t: string, s: string)
    ensures IsSubstring(t, s) <==> exists i :: OccursAt(t, s, i)
    decreases |s|
  {
    if s != [] {
      SubstringOccurs(t, s[1..]);
      if IsSubstring(t, s[1..]) {
        var i: nat :| OccursAt(t, s[1..], i);
        assert s[i + 1..i + 1 + |t|] == s[1..][i..i + |t|];
        assert OccursAt(t, s, i + 1);
      }
      if i: nat :| OccursAt(t, s, i) {
        if i > 0 {
          assert s[1..][i - 1..i - 1 + |t|] == s[i..i + |t|];
          assert OccursAt(t, s[1..], i - 1);
        }
      }
    }
    if t <= s {
      assert OccursAt(t, s, 0);
    }
  }

  function Lookup<N>(entries: seq<(string, Json<N>)>, key: string): (r: Option<Json<N>>)
    ensures r.None? <==> forall k :: 0 <= k < |entries| ==> entries[k].0 != key
    ensures r.Some? ==> exists k :: 0 <= k < |entries| && entries[k] == (key, r.value)
  {
    if entries == [] then None
    else if entries[0].0 == key then Some(entries[0].1)
    else
      var r := Lookup(entries[1..], key);
      assert r.Some? ==> exists k :: 0 <= k < |entries| - 1 && entries[1..][k] == (key, r.value);
      r
  }

  /** `key in container` for a string key. */
  function Contains<N>(container: Json<N>, key: string): (r: Result<bool, PyError>)
    ensures r.Failure? <==> !(container.Object? || container.Array? || container.Str?)
    ensures r.Failure? ==> r.error == TypeError
    ensures container.Object? ==> r == Success(Lookup(container.entries, key).Some?)
    ensures container.Array? ==> r == Success(Str(key) in container.items)
    ensures container.Str? ==> r == Success(exists i :: OccursAt(key, container.s, i))
  {
    match container
    case Object(entries) => Success(exists k :: 0 <= k < |entries| && entries[k].0 == key)
    case Array(items) => Success(exists k :: 0 <= k < |items| && items[k].Str? && items[k].s == key)
    case Str(s) =>
      SubstringOccurs(key, s);
      Success(IsSubstring(key, s))
    case _ => Failure(TypeError)
  }

  /** `container[key]` for a string key. */
  function Subscript<N>(container: Json<N>, key: string): (r: Result<Json<N>, PyError>)
    ensures r.Success? <==> container.Object? && Lookup(container.entries, key).Some?
    ensures r.Success? ==> Lookup(container.entries, key) == Some(r.value)
    ensures r.Failure? ==> r.error == (if container.Object? then KeyError(key) else TypeError)
  {
    match container
    case Object(entries) =>
      (match Lookup(entries, key)
       case Some(v) => Success(v)
       case None => Failure(KeyError(key)))
    case _ => Failure(TypeError)
  }

  /** `container[i]` for a non-negative integer index. */
  function ItemAt<N>(container: Json<N>, i: nat): (r: Result<Json<N>, PyError>)
    ensures r.Success? <==> (container.Array? && i < |container.items|) || (container.Str? && i < |container.s|)
    ensures container.Array? && i < |container.items| ==> r == Success(container.items[i])
    ensures (container.Array? || container.Str?) && r.Failure? ==> r.error == IndexError
    ensures container.Str? && i < |container.s| ==> r == Success(Str([container.s[i]]))
    ensures container.Object? ==> r.Failure? && r.error.KeyError?
    ensures !(container.Array? || container.Str? || container.Object?) ==> r == Failure(TypeError)
    ensures r.Failure? ==> !r.error.ValueError? && !r.error.AttributeError?
  {
    match container
    case Array(items) => if i < |items| then Success(items[i]) else Failure(IndexError)
    case Str(s) => if i < |s| then Success(Str([s[i]])) else Failure(IndexError)
    // JSON object keys are strings, never equal to an integer key
    case Object(_) => Failure(KeyError(Decimal(i)))
    case _ => Failure(TypeError)
  }

  /** The values a `for` loop over `container` visits. */
  function Iterate<N>(container: Json<N>): (r: Result<seq<Json<N>>, PyError>)
    ensures r.Failure? <==> !(container.Object? || container.Array? || container.Str?)
    ensures r.Failure? ==> r.error == TypeError
    ensures container.Array? ==> r == Success(container.items)
    ensures container.Str? ==> |r.value| == |container.s|
    ensures container.Str? ==> forall k :: 0 <= k < |container.s| ==> r.value[k] == Str([container.s[k]])
    ensures container.Object? ==> |r.value| == |container.entries|
    ensures container.Object? ==> forall k :: 0 <= k < |container.entries| ==> r.value[k] == Str(container.entries[k].0)
  {
    match container
    case Array(items) => Success(items)
    case Str(s) => Success(seq(|s|, k requires 0 <= k < |s| => Str([s[k]])))
    case Object(entries) => Success(seq(|entries|, k requires 0 <= k < |entries| => Str(entries[k].0)))
    case _ => Failure(TypeError)
  }

  /** `value.startswith(prefix)`: only strings have the method. */
  function StartsWith<N>(value: Json<N>, prefix: string): (r: Result<bool, PyError>)
    ensures r.Success? <==> value.Str?
    ensures r.Success? ==> r.value == (prefix <= value.s)
    ensures r.Failure? ==> r.error == AttributeError
  {
    match value
    case Str(s) => Success(prefix <= s)
    case _ => Failure(AttributeError)
  }

  /** `str(n)` for an integer: a minus sign for a negative number, then the digits of its magnitude. */
  function Decimal(n: int): (r: string)
    ensures r != []
    ensures n < 0 <==> r[0] == '-'
    ensures n >= 0 ==> r == Digits(n)
    ensures n < 0 ==> r[1..] == Digits(-n)
  {
    if n < 0 then "-" + Digits(-n) else Digits(n)
  }

  predicate IsDigit(c: char)
  {
    '0' <= c <= '9'
  }

  /** The number a string of decimal digits denotes. */
  function DigitsValue(s: string): int
    requires forall k :: 0 <= k < |s| ==> IsDigit(s[k])
  {
    if s == [] then 0 else DigitsValue(s[..|s| - 1]) * 10 + (s[|s| - 1] as int - '0' as int)
  }

  /** The decimal digits of `n`: they read back as `n`, with no leading zero. */
  function Digits(n: nat): (r: string)
    ensures r != []
    ensures forall k :: 0 <= k < |r| ==> IsDigit(r[k])
    ensures DigitsValue(r) == n
    ensures r[0] == '0' ==> n == 0
    ensures |r| > 1 ==> r[0] != '0'
    decreases n
  {
    var last := "0123456789"[n % 10];
    if n < 10 then [last]
    else
      var front := Digits(n / 10);
      assert (front + [last])[..|front|] == front;
      front + [last]
  }
}
