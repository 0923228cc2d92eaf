/**
 PHP arrays with string keys, as the event layers hold them, and the two
 library operations the layers are built on: Laravel's `Arr::add` and PHP's
 `array_merge`. Key order is not modelled.
 */
module PhpArrays {

  datatype Option<+T> = None | Some(value: T)

  /** A PHP value. Floats and objects are not modelled. */
  datatype Value =
    | Null
    | Bool(b: bool)
    | Int(i: int)
    | Str(s: string)
    | Arr(entries: map<string, Value>)

  /** A PHP array whose keys are all strings. */
  type PhpArray = map<string, Value>

  /** A key that Laravel's `Arr` helpers read literally, not as a dotted path. */
  predicate IsPlainKey(key: string) {
    '.' !in key
  }

  /**
   `Arr::add($array, $key, $value)` for a plain key: the value is written
   only when the key is missing or holds null; otherwise the array is
   returned as it was.
   */
  function Add(a: PhpArray, key: string, value: Value): (r: PhpArray)
    requires IsPlainKey(key)
    ensures r.Keys == a.Keys + {key}
    ensures key !in a || a[key] == Null ==> r[key] == value
    ensures key in a && a[key] != Null ==> r == a
    ensures forall k :: k in a && k != key ==> r[k] == a[k]
  {
    if key in a && a[key] != Null then a else a[key := value]
  }

  /**
   `array_merge($a, $b)` for string keys: a shallow union in which the
   entries of `b` replace those of `a` with the same key.
   */
  function ArrayMerge(a: PhpArray, b: PhpArray): (r: PhpArray)
    ensures r.Keys == a.Keys + b.Keys
    ensures forall k :: k in b ==> r[k] == b[k]
    ensures forall k :: k in a && k !in b ==> r[k] == a[k]
  {
    a + b
  }

  /** PHP's `empty()` on a string: true for "" and for "0". */
  predicate IsEmptyString(s: string): (r: bool)
    ensures r <==> |s| == 0 || (|s| == 1 && s[0] == '0')
  {
    s == "" || s == "0"
  }

  /** Only "" and "0" are empty: "00", " " and "0.0" are not. */
  lemma EmptyStringExamples()
    ensures IsEmptyString("") && IsEmptyString("0")
    ensures !IsEmptyString("00") && !IsEmptyString(" ") && !IsEmptyString("0.0")
  {
  }

  /** Adding under a key that already holds a non-null value changes nothing. */
  lemma AddKeepsFirst(a: PhpArray, key: string, first: Value, second: Value)
    requires IsPlainKey(key) && first != Null
    ensures Add(Add(a, key, first), key, second) == Add(a, key, first)
    ensures key !in a ==> Add(Add(a, key, first), key, second)[key] == first
  {
  }

  /** Merging an empty array, on either side, is the identity. */
  lemma MergeEmptyIdentity(a: PhpArray)
    ensures ArrayMerge(a, map[]) == a
    ensures ArrayMerge(map[], a) == a
  {
  }

  /** Merging the same array twice is the same as merging it once. */
  lemma MergeIdempotent(a: PhpArray, d: PhpArray)
    ensures ArrayMerge(ArrayMerge(a, d), d) == ArrayMerge(a, d)
  {
  }
}
