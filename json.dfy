/** JSON values as the normalisers receive them from `JSON.parse`, and the
    few Ruby operations the core applies to them: hash lookup, `||`, `to_s`,
    `downcase`, `include?` and `start_with?`. */
module JsonValues {

  datatype Option<T> = None | Some(value: T) {
    /** `x || default` for an optional value. */
    function GetOr(default: T): T {
      if Some? then value else default
    }
  }

  /** A decoded JSON value. Numbers are integers; floats are not modelled. */
  datatype Json =
    | JNull
    | JBool(b: bool)
    | JNum(n: int)
    | JStr(s: string)
    | JArr(items: seq<Json>)
    | JObj(fields: map<string, Json>)

  /** The empty hash `{}`. */
  const EmptyObj: Json := JObj(map[])

  /** Ruby truthiness: everything except `nil` and `false`. */
  predicate Truthy(j: Json) {
    j != JNull && j != JBool(false)
  }

  /** Ruby's `a || b`. */
  function Or(a: Json, b: Json): Json {
    if Truthy(a) then a else b
  }

  /** `h[key]`: the value under `key`, or `nil` when the key is missing or
      `h` is not a hash. */
  function Get(h: Json, key: string): Json {
    if h.JObj? && key in h.fields then h.fields[key] else JNull
  }

  /** `h.key?(key)`. */
  predicate HasKey(h: Json, key: string) {
    h.JObj? && key in h.fields
  }

  /** The text carried by an event field: the string itself; `nil` (the
      source's `|| ""`) and non-string values give the empty text. */
  function Str(j: Json): string {
    if j.JStr? then j.s else ""
  }

  /** The elements `each` visits: those of an array, none otherwise. */
  function Items(j: Json): seq<Json> {
    if j.JArr? then j.items else []
  }

  /** Ruby's `to_s` on a decoded value (arrays and hashes: see README). */
  function ToS(j: Json): string {
    match j
    case JNull => ""
    case JBool(b) => if b then "true" else "false"
    case JNum(n) => if n < 0 then "-" + Decimal(-n) else Decimal(n)
    case JStr(s) => s
    case JArr(_) => ""
    case JObj(_) => ""
  }

  function Decimal(n: nat): string
    decreases n
  {
    if n < 10 then [DigitChar(n)] else Decimal(n / 10) + [DigitChar(n % 10)]
  }

  function DigitChar(d: nat): char
    requires d < 10
  {
    "0123456789"[d]
  }

  predicate IsUpper(c: char) {
    'A' <= c <= 'Z'
  }

  function LowerChar(c: char): char {
    if IsUpper(c) then (c as int + 32) as char else c
  }

  /** `downcase`, over ASCII letters. */
  function Lower(s: string): string {
    seq(|s|, i requires 0 <= i < |s| => LowerChar(s[i]))
  }

  /** No upper-case ASCII letter occurs in `s`. */
  predicate IsLower(s: string) {
    forall i :: 0 <= i < |s| ==> !IsUpper(s[i])
  }

  /** `s.start_with?(prefix)`. */
  predicate StartsWith(s: string, prefix: string) {
    |prefix| <= |s| && s[..|prefix|] == prefix
  }

  /** `s.include?(sub)`. */
  predicate Includes(s: string, sub: string) {
    exists i :: 0 <= i <= |s| && OccursAt(s, sub, i)
  }

  /** `sub` occurs in `s` starting at position `i`. */
  predicate OccursAt(s: string, sub: string, i: nat) {
    i + |sub| <= |s| && s[i..i + |sub|] == sub
  }

  /** A string that differs from `prefix` at a position both share does not
      start with it. */
  lemma PrefixMismatch(s: string, prefix: string, i: nat)
    requires i < |prefix| && i < |s| && s[i] != prefix[i]
    ensures !StartsWith(s, prefix)
  {
    if |prefix| <= |s| {
      assert s[..|prefix|][i] != prefix[i];
    }
  }

  /** A string without `sub`'s first character cannot include it. */
  lemma MissingFirstCharExcludes(s: string, sub: string)
    requires |sub| > 0 && sub[0] !in s
    ensures !Includes(s, sub)
  {
    forall i: nat | i + |sub| <= |s|
      ensures !OccursAt(s, sub, i)
    {
      assert s[i..i + |sub|][0] == s[i];
    }
  }

  /** A string whose every occurrence of `sub[k]` lies too near either end
      for `sub` to fit around it cannot include `sub`. */
  lemma MisplacedCharExcludes(s: string, sub: string, k: nat)
    requires k < |sub|
    requires forall i :: 0 <= i < |s| && s[i] == sub[k] ==> i < k || |s| < i - k + |sub|
    ensures !Includes(s, sub)
  {
    forall i: nat | i + |sub| <= |s|
      ensures !OccursAt(s, sub, i)
    {
      assert s[i..i + |sub|][k] == s[i + k];
    }
  }

  /** The pieces joined in order. */
  function Concat(parts: seq<string>): string
    decreases |parts|
  {
    if parts == [] then "" else Concat(parts[..|parts| - 1]) + parts[|parts| - 1]
  }
}
