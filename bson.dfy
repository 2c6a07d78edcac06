/**
 * The stored form of an account: an untyped BSON-like document, the UUID type
 * with its text form, and Java's ASCII case conversions on strings.
 */
module Bson {
  import opened Results

  /** A value stored in a document. */
  datatype Value =
    | Null
    | Str(s: string)
    | Int64(n: int)
    | Bool(b: bool)
    | List(items: seq<Value>)
    | Embedded(fields: map<string, Value>)

  /** A document of the account collection: field name to value. */
  type Document = map<string, Value>

  /** The Java class a caller asks `Document.get(key, type)` to cast to. */
  datatype Kind = StringKind | LongKind | BooleanKind | ListKind | DocumentKind

  predicate HasKind(v: Value, kind: Kind) {
    match kind
    case StringKind => v.Str?
    case LongKind => v.Int64?
    case BooleanKind => v.Bool?
    case ListKind => v.List?
    case DocumentKind => v.Embedded?
  }

  /**
   * `Document.get(key, type)`: null when the key is absent or holds null, the
   * value when it has the requested type, a ClassCastException otherwise.
   */
  function Get(d: Document, key: string, kind: Kind): (r: Result<Option<Value>>)
    ensures r == Ok(None) <==> key !in d || d[key] == Null
    ensures r.Err? <==> key in d && d[key] != Null && !HasKind(d[key], kind)
    ensures r.Ok? && r.value.Some? ==> key in d && r.value.value == d[key] && HasKind(d[key], kind)
  {
    if key !in d || d[key] == Null then Ok(None)
    else if HasKind(d[key], kind) then Ok(Some(d[key]))
    else Err(ClassCast)
  }

  /** `Document.getString(key)`. */
  function GetString(d: Document, key: string): (r: Result<Option<string>>)
    ensures r == Ok(None) <==> key !in d || d[key] == Null
    ensures r.Ok? && r.value.Some? <==> key in d && d[key].Str?
    ensures r.Ok? && r.value.Some? ==> d[key] == Str(r.value.value)
    ensures r.Err? <==> key in d && d[key] != Null && !d[key].Str?
    ensures r.Err? ==> r.error == ClassCast
  {
    match Get(d, key, StringKind)
    case Err(e) => Err(e)
    case Ok(None) => Ok(None)
    case Ok(Some(v)) => Ok(Some(v.s))
  }

  /** `Document.get(key, List.class)`: the raw (type-erased) list. */
  function GetList(d: Document, key: string): (r: Result<Option<seq<Value>>>)
    ensures r == Ok(None) <==> key !in d || d[key] == Null
    ensures r.Ok? && r.value.Some? <==> key in d && d[key].List?
    ensures r.Ok? && r.value.Some? ==> d[key] == List(r.value.value)
    ensures r.Err? <==> key in d && d[key] != Null && !d[key].List?
    ensures r.Err? ==> r.error == ClassCast
  {
    match Get(d, key, ListKind)
    case Err(e) => Err(e)
    case Ok(None) => Ok(None)
    case Ok(Some(v)) => Ok(Some(v.items))
  }

  /** A nullable string as a document value. */
  function StrOrNull(s: Option<string>): Value {
    if s.Some? then Str(s.value) else Null
  }

  /** A nullable list as a document value. */
  function ListOrNull(l: Option<seq<Value>>): Value {
    if l.Some? then List(l.value) else Null
  }

  lemma {:induction false} StrOrNullRoundTrip(d: Document, key: string, s: Option<string>)
    requires key in d && d[key] == StrOrNull(s)
    ensures GetString(d, key) == Ok(s)
  {
    if s.Some? {
      assert Get(d, key, StringKind) == Ok(Some(Str(s.value)));
    }
  }

  lemma {:induction false} ListOrNullRoundTrip(d: Document, key: string, l: Option<seq<Value>>)
    requires key in d && d[key] == ListOrNull(l)
    ensures GetList(d, key) == Ok(l)
  {
    if l.Some? {
      assert Get(d, key, ListKind) == Ok(Some(List(l.value)));
    }
  }

  // ---------------------------------------------------------------------
  // Case conversion (the ASCII letters; see README for what is left out)

  function LowerChar(c: char): char {
    if 'A' <= c <= 'Z' then (c as int + 32) as char else c
  }

  function UpperChar(c: char): char {
    if 'a' <= c <= 'z' then (c as int - 32) as char else c
  }

  /** `String.toLowerCase()`: every letter is folded, nothing else changes. */
  function ToLower(s: string): (r: string)
    ensures |r| == |s|
    ensures forall i :: 0 <= i < |s| ==> r[i] == LowerChar(s[i])
  {
    seq(|s|, i requires 0 <= i < |s| => LowerChar(s[i]))
  }

  /**
   * `String.equalsIgnoreCase`: same length, and at every position the two
   * characters are equal, or equal once upper-cased, or equal once lower-cased.
   */
  predicate EqualsIgnoreCase(a: string, b: string) {
    |a| == |b| &&
    forall i :: 0 <= i < |a| ==>
      a[i] == b[i] || UpperChar(a[i]) == UpperChar(b[i]) || LowerChar(a[i]) == LowerChar(b[i])
  }

  lemma CharsIgnoreCase(x: char, y: char)
    ensures (x == y || UpperChar(x) == UpperChar(y) || LowerChar(x) == LowerChar(y))
            <==> LowerChar(x) == LowerChar(y)
  {
  }

  /** Comparing ignoring case is comparing the lower-cased forms. */
  lemma EqualsIgnoreCaseIsLowerEquality(a: string, b: string)
    ensures EqualsIgnoreCase(a, b) <==> ToLower(a) == ToLower(b)
  {
    if ToLower(a) == ToLower(b) {
      forall i | 0 <= i < |a|
        ensures a[i] == b[i] || UpperChar(a[i]) == UpperChar(b[i]) || LowerChar(a[i]) == LowerChar(b[i])
      {
        assert ToLower(a)[i] == ToLower(b)[i];
      }
    }
    if EqualsIgnoreCase(a, b) {
      forall i | 0 <= i < |a| ensures ToLower(a)[i] == ToLower(b)[i] {
        CharsIgnoreCase(a[i], b[i]);
      }
    }
  }

  lemma ToLowerIdempotent(s: string)
    ensures ToLower(ToLower(s)) == ToLower(s)
  {
  }

  // ---------------------------------------------------------------------
  // UUIDs, identified with their canonical text form

  predicate IsHexDigit(c: char) {
    '0' <= c <= '9' || 'a' <= c <= 'f' || 'A' <= c <= 'F'
  }

  predicate IsDashPosition(i: int) {
    i == 8 || i == 13 || i == 18 || i == 23
  }

  /** The 8-4-4-4-12 hexadecimal form, in either case. */
  predicate IsUuidText(s: string) {
    |s| == 36 &&
    forall i :: 0 <= i < 36 ==> if IsDashPosition(i) then s[i] == '-' else IsHexDigit(s[i])
  }

  /** The form `UUID.toString()` produces: lower-case hexadecimal. */
  predicate IsCanonicalUuid(s: string) {
    IsUuidText(s) && ToLower(s) == s
  }

  /** A `java.util.UUID`, represented by what `toString()` gives for it. */
  type Uuid = s: string | IsCanonicalUuid(s) witness "00000000-0000-0000-0000-000000000000"

  /** `UUID.toString()`. */
  function UuidToString(u: Uuid): (s: string)
    ensures IsUuidText(s) && ToLower(s) == s
  {
    u
  }

  lemma LowerUuidText(s: string)
    requires IsUuidText(s)
    ensures IsCanonicalUuid(ToLower(s))
  {
    var t := ToLower(s);
    forall i | 0 <= i < 36
      ensures if IsDashPosition(i) then t[i] == '-' else IsHexDigit(t[i])
    {
      assert t[i] == LowerChar(s[i]);
    }
    ToLowerIdempotent(s);
  }

  /**
   * `UUID.fromString(s)`: a NullPointerException for null, an
   * IllegalArgumentException for text that is not a UUID.
   */
  function ParseUuid(s: Option<string>): (r: Result<Uuid>)
    ensures s.None? ==> r == Err(NullPointer)
    ensures s.Some? && !IsUuidText(s.value) ==> r == Err(IllegalArgument)
    ensures s.Some? && IsUuidText(s.value) ==> r.Ok? && UuidToString(r.value) == ToLower(s.value)
  {
    if s.None? then Err(NullPointer)
    else if !IsUuidText(s.value) then Err(IllegalArgument)
    else
      LowerUuidText(s.value);
      Ok(ToLower(s.value))
  }

  /** Parsing the text of a UUID gives that UUID back. */
  lemma ParseUuidToString(u: Uuid)
    ensures ParseUuid(Some(UuidToString(u))) == Ok(u)
  {
  }
}
