/**
 * The small part of PHP's value model and string library that the log engine
 * relies on: nested arrays with ordered keys, `empty()`, the `(string)` cast,
 * `strtolower`, `trim`, `strpos` and assignment into an ordered array.
 */
module Php {

  datatype Option<+T> = None | Some(value: T) {
    function GetOr(default: T): T {
      match this
      case Some(v) => v
      case None => default
    }
  }

  /** The exceptions the engine lets escape to its caller. */
  datatype Failure =
    | LogicException(message: string)       // unknown transport scheme
    | ConversionError                       // an object without __toString cast to string
    | CallbackException(message: string)    // thrown by a configured callback
    | PublishException                      // thrown while publishing (transport or publisher)

  datatype Result<+T> = Ok(value: T) | Err(error: Failure) {
    predicate IsFailure() { Err? }
    function PropagateFailure<U>(): Result<U> requires Err? { Err(error) }
    function Extract(): T requires Ok? { value }
  }

  /** A PHP array key: arrays are ordered maps from int or string keys. */
  datatype Key = IntKey(n: int) | StrKey(s: string)

  /**
   * A PHP value. Objects are represented by the set of names of their class and
   * all its ancestors, so that `instanceof C` is membership of C.
   */
  datatype Value =
    | Null
    | Bool(b: bool)
    | Int(n: int)
    | Str(s: string)
    | Arr(entries: seq<Entry>)
    | Obj(classes: set<string>)

  datatype Entry = Entry(key: Key, val: Value)

  function DigitChar(d: nat): char
    requires d < 10
  {
    "0123456789"[d]
  }

  function Digits(n: nat): (r: string)
    ensures r != []
    ensures forall i :: 0 <= i < |r| ==> '0' <= r[i] <= '9'
    decreases n
  {
    if n < 10 then [DigitChar(n)] else Digits(n / 10) + [DigitChar(n % 10)]
  }

  /** PHP's decimal rendering of an integer. */
  function DecimalString(n: int): string {
    if n < 0 then "-" + Digits(-n) else Digits(n)
  }

  /** The string a key becomes when used as a string (`$key . ':'`, `strtolower($key)`). */
  function KeyString(k: Key): string {
    match k
    case IntKey(n) => DecimalString(n)
    case StrKey(s) => s
  }

  /** PHP's `empty()`: null, false, 0, "", "0" and the empty array. */
  predicate IsEmpty(v: Value) {
    match v
    case Null => true
    case Bool(b) => !b
    case Int(n) => n == 0
    case Str(s) => s == "" || s == "0"
    case Arr(es) => es == []
    case Obj(_) => false
  }

  /**
   * PHP's `(string)` cast and the conversion done by `.=`. An array becomes
   * "Array"; an object cannot be converted (None stands for the Error raised).
   */
  function CastToString(v: Value): (r: Option<string>)
    ensures r.None? <==> v.Obj?
    ensures v.Str? ==> r == Some(v.s)
    ensures v == Null || v == Bool(false) ==> r == Some("")
  {
    match v
    case Null => Some("")
    case Bool(b) => Some(if b then "1" else "")
    case Int(n) => Some(DecimalString(n))
    case Str(s) => Some(s)
    case Arr(_) => Some("Array")
    case Obj(_) => None
  }

  predicate IsUpper(c: char) { 'A' <= c <= 'Z' }

  predicate IsLowerCase(s: string) {
    forall i :: 0 <= i < |s| ==> !IsUpper(s[i])
  }

  function LowerChar(c: char): char {
    if IsUpper(c) then (c as int + 32) as char else c
  }

  /** `strtolower`: ASCII letters A-Z become a-z, every other character is kept. */
  function ToLower(s: string): (r: string)
    ensures |r| == |s| && IsLowerCase(r)
    ensures forall i :: 0 <= i < |s| && !IsUpper(s[i]) ==> r[i] == s[i]
    ensures forall i :: 0 <= i < |s| && IsUpper(s[i]) ==> r[i] as int == s[i] as int + 32
    ensures IsLowerCase(s) ==> r == s
  {
    seq(|s|, i requires 0 <= i < |s| => LowerChar(s[i]))
  }

  /** The characters `trim` strips by default: " \t\n\r\0\x0B". */
  predicate IsTrimChar(c: char) {
    c == ' ' || c == '\t' || c == '\n' || c == '\r' || c as int == 0 || c as int == 11
  }

  function TrimLeft(s: string): (r: string)
    ensures |r| <= |s| && r == s[|s| - |r|..]
    ensures forall i :: 0 <= i < |s| - |r| ==> IsTrimChar(s[i])
    ensures r == [] || !IsTrimChar(r[0])
  {
    if s != [] && IsTrimChar(s[0]) then TrimLeft(s[1..]) else s
  }

  function TrimRight(s: string): (r: string)
    ensures |r| <= |s| && r == s[..|r|]
    ensures forall i :: |r| <= i < |s| ==> IsTrimChar(s[i])
    ensures r == [] || !IsTrimChar(r[|r| - 1])
  {
    if s != [] && IsTrimChar(s[|s| - 1]) then TrimRight(s[..|s| - 1]) else s
  }

  /** `trim`: the result is empty exactly when every character is white space or NUL. */
  function Trim(s: string): (r: string)
    ensures r == "" <==> forall i :: 0 <= i < |s| ==> IsTrimChar(s[i])
  {
    TrimEmptyIff(s);
    TrimRight(TrimLeft(s))
  }

  lemma {:induction false} TrimEmptyIff(s: string)
    ensures TrimRight(TrimLeft(s)) == "" <==> forall i :: 0 <= i < |s| ==> IsTrimChar(s[i])
  {
    var left := TrimLeft(s);
    if TrimRight(left) != "" {
      assert !IsTrimChar(s[|s| - |left|]);
    }
  }

  /** `strpos($s, $needle) !== false` for a non-empty needle. */
  predicate Contains(s: string, needle: string) {
    exists i :: 0 <= i <= |s| && needle <= s[i..]
  }

  /** A string with `needle` appended to it contains `needle`. */
  lemma {:induction false} ContainsAppended(s: string, needle: string, tail: string)
    ensures Contains(s + needle + tail, needle)
  {
    var w := s + needle + tail;
    assert w[|s|..] == needle + tail;
  }

  /** An ordered PHP array whose values are all of one type. */
  type OrderedMap<V> = seq<(Key, V)>

  function Keys<V>(m: OrderedMap<V>): (r: seq<Key>)
    ensures |r| == |m|
    ensures forall i :: 0 <= i < |m| ==> r[i] == m[i].0
  {
    if m == [] then [] else [m[0].0] + Keys(m[1..])
  }

  /** The keys of an ordered array after assigning under `k`: unchanged when `k` is present, else `k` last. */
  function AddKey(ks: seq<Key>, k: Key): seq<Key> {
    if k in ks then ks else ks + [k]
  }

  function Lookup<V>(m: OrderedMap<V>, k: Key): Option<V> {
    if m == [] then None else if m[0].0 == k then Some(m[0].1) else Lookup(m[1..], k)
  }

  /** `$m[$k] = $v`: an existing key keeps its position, a new key goes last. */
  function Assign<V>(m: OrderedMap<V>, k: Key, v: V): OrderedMap<V> {
    if m == [] then [(k, v)]
    else if m[0].0 == k then [(k, v)] + m[1..]
    else [m[0]] + Assign(m[1..], k, v)
  }

  lemma {:induction false} AssignSpec<V>(m: OrderedMap<V>, k: Key, v: V)
    ensures Lookup(Assign(m, k, v), k) == Some(v)
    ensures forall k' :: k' != k ==> Lookup(Assign(m, k, v), k') == Lookup(m, k')
    ensures Keys(Assign(m, k, v)) == AddKey(Keys(m), k)
  {
    if m != [] && m[0].0 != k {
      AssignSpec(m[1..], k, v);
      assert Keys(m) == [m[0].0] + Keys(m[1..]);
      assert Assign(m, k, v)[1..] == Assign(m[1..], k, v);
    } else if m != [] {
      assert Keys(m) == [k] + Keys(m[1..]);
      assert Assign(m, k, v)[1..] == m[1..];
    }
  }
}
