/** The JavaScript built-ins the client relies on, restricted to ASCII:
    truthiness of a nullable string, template-literal conversion, case
    mapping, `includes`, and the `\s` / `\w` regular-expression classes. */
module Js {
  import opened Wrappers

  /** `!!v` for a value of type `string | null`: the empty string is falsy. */
  predicate Truthy(v: Option<string>) {
    v.Some? && v.value != ""
  }

  /** `${v}` for a value of type `string | null`: null prints as "null". */
  function Template(v: Option<string>): (r: string)
    ensures v.Some? ==> r == v.value
    ensures v.None? ==> r == "null"
  {
    match v
    case Some(s) => s
    case None => "null"
  }

  /** The `\s` class on ASCII: space, tab, line feed, vertical tab, form feed, carriage return. */
  predicate IsSpace(c: char) {
    c == ' ' || (9 <= c as int <= 13)
  }

  /** The `\w` class: ASCII letters, digits and underscore. */
  predicate IsWordChar(c: char) {
    ('a' <= c <= 'z') || ('A' <= c <= 'Z') || ('0' <= c <= '9') || c == '_'
  }

  function LowerChar(c: char): (d: char)
    ensures IsSpace(d) <==> IsSpace(c)
    ensures !('A' <= d <= 'Z')
  {
    if 'A' <= c <= 'Z' then (c as int + 32) as char else c
  }

  function UpperChar(c: char): (d: char)
    ensures IsSpace(d) <==> IsSpace(c)
    ensures !('a' <= d <= 'z')
  {
    if 'a' <= c <= 'z' then (c as int - 32) as char else c
  }

  /** `s.toLowerCase()` on ASCII text. */
  function ToLower(s: string): (r: string)
    ensures |r| == |s|
    ensures forall i :: 0 <= i < |s| ==> r[i] == LowerChar(s[i])
  {
    if s == [] then [] else [LowerChar(s[0])] + ToLower(s[1..])
  }

  /** Lower-casing twice is lower-casing once. */
  lemma {:induction false} ToLowerIdempotent(s: string)
    ensures ToLower(ToLower(s)) == ToLower(s)
  {
    var once := ToLower(s);
    assert forall i :: 0 <= i < |s| ==> ToLower(once)[i] == LowerChar(LowerChar(s[i])) == once[i];
  }

  /** `needle` occurs in `hay` starting at index `i`. */
  predicate OccursAt(hay: string, needle: string, i: int) {
    0 <= i && i + |needle| <= |hay| && hay[i..i + |needle|] == needle
  }

  /** `hay.includes(needle)`. */
  predicate Includes(hay: string, needle: string) {
    exists i :: 0 <= i <= |hay| - |needle| && OccursAt(hay, needle, i)
  }

  /** Every string includes the empty string, so an empty search matches everything. */
  lemma IncludesEmpty(hay: string)
    ensures Includes(hay, "")
  {
    assert OccursAt(hay, "", 0);
  }
}
