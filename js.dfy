/** JavaScript values as the server's guards see them.
    Numbers are modelled as integers; objects and arrays received from a client are opaque
    and compared by identity, which is what `===` does on them. */
module Js {

  datatype Option<+T> = None | Some(value: T)

  /** A JavaScript value. `Obj(ref)` stands for an object or array; two of them are `===`
      exactly when they are the same object, i.e. have the same `ref`. */
  datatype JsVal = Undefined | Null | Bool(b: bool) | Num(n: int) | Str(s: string) | Obj(ref: nat)

  /** `!!v`: the truthiness that `if (v)`, `!v`, `v && ...` and `v || ...` test. */
  predicate Truthy(v: JsVal) {
    match v
    case Undefined => false
    case Null => false
    case Bool(b) => b
    case Num(n) => n != 0
    case Str(s) => s != ""
    case Obj(_) => true
  }

  /** `a || b` */
  function Or(a: JsVal, b: JsVal): JsVal {
    if Truthy(a) then a else b
  }

  /** `a && b` */
  function And(a: JsVal, b: JsVal): JsVal {
    if Truthy(a) then b else a
  }

  /** `s.startsWith(prefix)` */
  predicate StartsWith(s: string, prefix: string) {
    |prefix| <= |s| && s[..|prefix|] == prefix
  }

  /** `Math.round(num / den)` for a positive denominator, computed exactly:
      JavaScript rounds halves towards +infinity, i.e. `floor(x + 1/2)`. */
  function RoundDiv(num: int, den: int): (r: int)
    requires den > 0
    ensures 2 * den * r <= 2 * num + den < 2 * den * (r + 1)
  {
    (2 * num + den) / (2 * den)
  }

  lemma RoundDivBounds(num: int, den: int, lo: int, hi: int)
    requires den > 0 && lo * den <= num <= hi * den
    ensures lo <= RoundDiv(num, den) <= hi
  {
    var r := RoundDiv(num, den);
    TwiceTimes(den, hi + 1);
    TwiceTimes(den, lo);
    LessByFactor(r, hi + 1, 2 * den);
    LessByFactor(lo, r + 1, 2 * den);
  }

  lemma TwiceTimes(den: int, k: int)
    ensures 2 * den * k == 2 * (k * den) && k * den == (k - 1) * den + den
  {
  }

  lemma LessByFactor(a: int, b: int, c: int)
    requires c > 0 && c * a < c * b
    ensures a < b
  {
  }

  /** The decimal text of an integer, as `String(n)` writes it. */
  function DecimalText(n: int): string
    decreases if n < 0 then -n + 1 else n
  {
    if n < 0 then "-" + DecimalText(-n)
    else if n < 10 then [DigitChar(n)]
    else DecimalText(n / 10) + [DigitChar(n % 10)]
  }

  function DigitChar(d: int): char
    requires 0 <= d < 10
  {
    "0123456789"[d]
  }

  /** `String(v)`: how `+` and template strings write a value. An object is written as
      `[object Object]`; arrays, whose text is their joined elements, are not distinguished. */
  function ToText(v: JsVal): string {
    match v
    case Undefined => "undefined"
    case Null => "null"
    case Bool(b) => if b then "true" else "false"
    case Num(n) => DecimalText(n)
    case Str(s) => s
    case Obj(_) => "[object Object]"
  }

  /** The names of `Object.prototype`'s properties, which every plain object and array
      inherits: looking one of them up finds a value even where no such key was set. */
  const ObjectPrototypeNames: set<string> := {
    "constructor", "__proto__", "hasOwnProperty", "isPrototypeOf", "propertyIsEnumerable",
    "toLocaleString", "toString", "valueOf", "__defineGetter__", "__defineSetter__",
    "__lookupGetter__", "__lookupSetter__"}

  /** The names of `Array.prototype`'s methods as of ECMAScript 2023. `length` is an own
      property of every array and not among them: it is 0, and falsy, only until a key that
      is an array index is stored. */
  const ArrayMethodNames: set<string> := {
    "at", "concat", "copyWithin", "entries", "every", "fill", "filter", "find", "findIndex",
    "findLast", "findLastIndex", "flat", "flatMap", "forEach", "includes", "indexOf", "join",
    "keys", "lastIndexOf", "map", "pop", "push", "reduce", "reduceRight", "reverse", "shift",
    "slice", "some", "sort", "splice", "toLocaleString", "toReversed", "toSorted", "toSpliced",
    "toString", "unshift", "values", "with"}

  /** The keys under which an array used as a dictionary finds a truthy value it did not
      store: a method, its `constructor`, or its prototype. */
  const ArrayInheritedNames: set<string> := ObjectPrototypeNames + ArrayMethodNames

  predicate IsDigit(c: char) {
    '0' <= c <= '9'
  }

  predicate AllDigits(s: string) {
    forall i | 0 <= i < |s| :: IsDigit(s[i])
  }

  /** The value of a string of decimal digits. */
  function DigitsValue(s: string): (n: nat)
    requires AllDigits(s)
  {
    if s == [] then 0 else DigitsValue(s[..|s| - 1]) * 10 + (s[|s| - 1] as int - '0' as int)
  }

  /** `Number(v)` on the values the server compares; `None` stands for NaN. A string converts
      when it is empty (0) or an optionally negated run of digits; other numeric spellings
      (spaces, a fraction, an exponent, hexadecimal) are read as NaN. An object is NaN. */
  function ToNumber(v: JsVal): Option<int> {
    match v
    case Undefined => None
    case Null => Some(0)
    case Bool(b) => Some(if b then 1 else 0)
    case Num(n) => Some(n)
    case Str(s) =>
      if s == "" then Some(0)
      else if AllDigits(s) then Some(DigitsValue(s))
      else if s[0] == '-' && |s| > 1 && AllDigits(s[1..]) then Some(0 - DigitsValue(s[1..]) as int)
      else None
    case Obj(_) => None
  }

  predicate Nullish(v: JsVal) {
    v.Undefined? || v.Null?
  }

  predicate SameKind(a: JsVal, b: JsVal) {
    (a.Bool? && b.Bool?) || (a.Num? && b.Num?) || (a.Str? && b.Str?) || (a.Obj? && b.Obj?)
  }

  /** `a == b`: same-kind values compare strictly, null and undefined equal each other and
      nothing else, and booleans, numbers and strings meet as numbers. An object against a
      primitive (which JavaScript first turns into a primitive) is taken as unequal. */
  predicate LooseEq(a: JsVal, b: JsVal) {
    if Nullish(a) || Nullish(b) then Nullish(a) && Nullish(b)
    else if SameKind(a, b) then a == b
    else if a.Obj? || b.Obj? then false
    else ToNumber(a).Some? && ToNumber(a) == ToNumber(b)
  }

  lemma LooseEqOnStrings(a: string, b: string)
    ensures LooseEq(Str(a), Str(b)) <==> a == b
  {
  }

  /** The numbers the breakout handler accepts as "type 1". */
  lemma LooseEqOne(v: JsVal)
    ensures LooseEq(v, Num(1)) <==> v == Num(1) || v == Bool(true) || (v.Str? && ToNumber(v) == Some(1))
  {
  }

  predicate NoDup<T(==)>(s: seq<T>) {
    forall i, j | 0 <= i < j < |s| :: s[i] != s[j]
  }

  /** A prefix of a list without repetitions has none, and misses the elements after it. */
  lemma NoDupPrefix<T>(s: seq<T>, j: nat)
    requires NoDup(s) && j < |s|
    ensures NoDup(s[..j]) && s[j] !in s[..j]
  {
    assert forall x | 0 <= x < j :: s[..j][x] == s[x];
  }

  // ---- The order in which `Object.values` and `for...in` visit an object's keys ----

  /** An array index: the canonical decimal text of an integer below 2^32 - 1. */
  predicate IsArrayIndex(k: string) {
    && k != "" && AllDigits(k)
    && (k[0] == '0' ==> |k| == 1)
    && DigitsValue(k) < 0xFFFF_FFFF
  }

  function IndexKeys(keys: seq<string>): (r: seq<string>)
    ensures forall k | k in r :: IsArrayIndex(k)
    ensures multiset(r) <= multiset(keys)
  {
    if keys == [] then []
    else
      assert keys == [keys[0]] + keys[1..];
      (if IsArrayIndex(keys[0]) then [keys[0]] else []) + IndexKeys(keys[1..])
  }

  function OtherKeys(keys: seq<string>): (r: seq<string>)
    ensures forall k | k in r :: !IsArrayIndex(k)
    ensures multiset(r) <= multiset(keys)
  {
    if keys == [] then []
    else
      assert keys == [keys[0]] + keys[1..];
      (if IsArrayIndex(keys[0]) then [] else [keys[0]]) + OtherKeys(keys[1..])
  }

  /** The numeric value of an array-index key (0 for any other key). */
  function KeyValue(k: string): nat {
    if AllDigits(k) then DigitsValue(k) else 0
  }

  predicate IndexSorted(s: seq<string>) {
    forall i, j | 0 <= i < j < |s| :: KeyValue(s[i]) <= KeyValue(s[j])
  }

  /** Inserts `x` before the first key of `s` with a larger or equal value. */
  function InsertByValue(x: string, s: seq<string>): (r: seq<string>)
    ensures |r| == |s| + 1
  {
    if s == [] || KeyValue(x) <= KeyValue(s[0]) then [x] + s
    else [s[0]] + InsertByValue(x, s[1..])
  }

  lemma {:induction false} InsertByValuePerm(x: string, s: seq<string>)
    ensures multiset(InsertByValue(x, s)) == multiset(s) + multiset{x}
  {
    if s != [] && KeyValue(x) > KeyValue(s[0]) {
      InsertByValuePerm(x, s[1..]);
      assert s == [s[0]] + s[1..];
    }
  }

  lemma {:induction false} InsertByValueSorted(x: string, s: seq<string>)
    requires IndexSorted(s)
    ensures var r := InsertByValue(x, s); IndexSorted(r) && (r[0] == x || (s != [] && r[0] == s[0]))
  {
    if s != [] && KeyValue(x) > KeyValue(s[0]) {
      var t := InsertByValue(x, s[1..]);
      InsertByValueSorted(x, s[1..]);
      assert KeyValue(s[0]) <= KeyValue(t[0]);
      var r := [s[0]] + t;
      forall i, j | 0 <= i < j < |r| ensures KeyValue(r[i]) <= KeyValue(r[j]) {
        if i == 0 && j > 1 {
          assert r[j] == t[j - 1];
        }
      }
    }
  }

  /** Insertion sort of array-index keys by numeric value. */
  function SortByValue(s: seq<string>): (r: seq<string>)
    ensures |r| == |s|
  {
    if s == [] then [] else InsertByValue(s[0], SortByValue(s[1..]))
  }

  lemma {:induction false} SortByValuePerm(s: seq<string>)
    ensures multiset(SortByValue(s)) == multiset(s)
  {
    if s != [] {
      SortByValuePerm(s[1..]);
      InsertByValuePerm(s[0], SortByValue(s[1..]));
      assert s == [s[0]] + s[1..];
    }
  }

  lemma {:induction false} SortByValueSorted(s: seq<string>)
    ensures IndexSorted(SortByValue(s))
  {
    if s != [] {
      SortByValueSorted(s[1..]);
      InsertByValueSorted(s[0], SortByValue(s[1..]));
    }
  }

  /** The visiting order of the keys of an object whose keys were created in the order `keys`:
      array indices first, by numeric value, then the other keys in creation order. */
  function PropertyOrder(keys: seq<string>): seq<string> {
    SortByValue(IndexKeys(keys)) + OtherKeys(keys)
  }

  lemma {:induction false} SplitKeys(keys: seq<string>)
    ensures multiset(IndexKeys(keys)) + multiset(OtherKeys(keys)) == multiset(keys)
  {
    if keys != [] {
      SplitKeys(keys[1..]);
      assert keys == [keys[0]] + keys[1..];
    }
  }

  /** Every key is visited exactly as often as it was created. */
  lemma PropertyOrderIsPermutation(keys: seq<string>)
    ensures multiset(PropertyOrder(keys)) == multiset(keys)
  {
    SplitKeys(keys);
    SortByValuePerm(IndexKeys(keys));
  }

  /** The visit goes over exactly the created keys. */
  lemma PropertyOrderMembers(keys: seq<string>)
    ensures forall k :: k in PropertyOrder(keys) <==> k in keys
  {
    PropertyOrderIsPermutation(keys);
    forall k ensures k in PropertyOrder(keys) <==> k in keys {
      assert k in PropertyOrder(keys) <==> k in multiset(PropertyOrder(keys));
      assert k in keys <==> k in multiset(keys);
    }
  }

  lemma {:induction false} OtherKeysIdentity(keys: seq<string>)
    requires forall k | k in keys :: !IsArrayIndex(k)
    ensures IndexKeys(keys) == [] && OtherKeys(keys) == keys
  {
    if keys != [] {
      OtherKeysIdentity(keys[1..]);
      assert keys == [keys[0]] + keys[1..];
    }
  }

  /** With no array-index keys the visiting order is the creation order. */
  lemma PropertyOrderWithoutIndices(keys: seq<string>)
    requires forall k | k in keys :: !IsArrayIndex(k)
    ensures PropertyOrder(keys) == keys
  {
    OtherKeysIdentity(keys);
  }

  /** An array-index key is visited before every other key, whenever it was created. */
  lemma IndicesComeFirst(keys: seq<string>, i: nat, j: nat)
    requires i < |PropertyOrder(keys)| && j < |PropertyOrder(keys)|
    requires IsArrayIndex(PropertyOrder(keys)[j]) && !IsArrayIndex(PropertyOrder(keys)[i])
    ensures j < i
  {
    var sorted := SortByValue(IndexKeys(keys));
    var others := OtherKeys(keys);
    var p := PropertyOrder(keys);
    SortByValuePerm(IndexKeys(keys));
    forall k | k in sorted ensures IsArrayIndex(k) {
      assert k in multiset(sorted);
      assert k in multiset(IndexKeys(keys));
    }
    assert forall m | 0 <= m < |sorted| :: p[m] == sorted[m];
    assert forall m | |sorted| <= m < |p| :: p[m] == others[m - |sorted|];
  }
}
