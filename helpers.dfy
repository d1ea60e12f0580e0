/** The string and value helpers of src/utils/helpers.ts (all but
    `formatCurrency`), on ASCII text. */
module Helpers {
  import opened Js
  import opened Numerals

  // ----- truncateString -----

  /** Where `str.slice(0, end)` stops: a negative `end` counts from the end of the string. */
  function SliceEnd(len: nat, end: int): (e: nat)
    ensures e <= len
  {
    if end < 0 then (if len + end < 0 then 0 else len + end)
    else if end > len then len
    else end
  }

  /** `truncateString(str, length)`: the string itself when it fits, otherwise
      its first `length` characters followed by "...". */
  function TruncateString(str: string, length: int): (r: string)
    ensures |str| <= length ==> r == str
    ensures |str| > length ==> |r| >= 3 && r[|r| - 3..] == "..." && |r| - 3 <= |str| && r[..|r| - 3] == str[..|r| - 3]
    ensures |str| > length && length >= 0 ==> |r| == length + 3
    ensures |str| > length && length < 0 ==> |r| - 3 == (if |str| + length < 0 then 0 else |str| + length)
  {
    if |str| <= length then str
    else str[..SliceEnd(|str|, length)] + "..."
  }

  // ----- toTitleCase -----

  /** How many characters at the start of `t` are not `\s`. */
  function NonSpacePrefix(t: string): (n: nat)
    ensures n <= |t|
    ensures forall j :: 0 <= j < n ==> !IsSpace(t[j])
    ensures n < |t| ==> IsSpace(t[n])
  {
    if t == [] || IsSpace(t[0]) then 0 else 1 + NonSpacePrefix(t[1..])
  }

  /** The replacer: `txt.charAt(0).toUpperCase() + txt.slice(1).toLowerCase()`. */
  function Capitalize(txt: string): (r: string)
    requires |txt| > 0
    ensures |r| == |txt| && r[0] == UpperChar(txt[0])
    ensures forall j :: 0 < j < |txt| ==> r[j] == LowerChar(txt[j])
  {
    [UpperChar(txt[0])] + ToLower(txt[1..])
  }

  /** `str.replace` of the global pattern `\w\S*` by `Capitalize`: scan left to right; at a word
      character, the match runs up to the next `\s` and is capitalized;
      any other character is kept. */
  function ToTitleCase(s: string): (r: string)
    ensures |r| == |s|
    decreases |s|
  {
    if s == [] then []
    else if IsWordChar(s[0]) then
      var n := 1 + NonSpacePrefix(s[1..]);
      Capitalize(s[..n]) + ToTitleCase(s[n..])
    else [s[0]] + ToTitleCase(s[1..])
  }

  /** Position `i` lies inside a match of the global pattern `\w\S*`: it is not `\s`, and
      either it is a word character or its predecessor is inside a match. */
  predicate InRun(s: string, i: nat)
    requires i < |s|
  {
    !IsSpace(s[i]) && (IsWordChar(s[i]) || (i > 0 && InRun(s, i - 1)))
  }

  /** Position `i` is the first character of a match. */
  predicate StartsRun(s: string, i: nat)
    requires i < |s|
  {
    InRun(s, i) && (i == 0 || !InRun(s, i - 1))
  }

  /** The character title-casing should leave at `i`, stated per position. */
  function TitleCaseAt(s: string, i: nat): char
    requires i < |s|
  {
    if !InRun(s, i) then s[i]
    else if StartsRun(s, i) then UpperChar(s[i])
    else LowerChar(s[i])
  }

  /** Match membership of a suffix agrees with that of the whole string when
      the suffix starts at a break (the start, after a non-match, or at `\s`). */
  lemma {:induction false} InRunShift(s: string, k: nat, j: nat)
    requires k + j < |s|
    requires k == 0 || !InRun(s, k - 1) || IsSpace(s[k])
    ensures InRun(s, k + j) == InRun(s[k..], j)
    decreases j
  {
    if j > 0 {
      InRunShift(s, k, j - 1);
    }
  }

  lemma {:induction false} TitleCaseAtShift(s: string, k: nat, j: nat)
    requires k + j < |s|
    requires k == 0 || !InRun(s, k - 1) || IsSpace(s[k])
    ensures TitleCaseAt(s, k + j) == TitleCaseAt(s[k..], j)
  {
    InRunShift(s, k, j);
    if j > 0 {
      InRunShift(s, k, j - 1);
    }
  }

  /** Every position of a match that starts at 0 lies inside a match. */
  lemma {:induction false} RunPositionsInRun(s: string, n: nat, j: nat)
    requires 0 < n <= |s| && IsWordChar(s[0])
    requires forall m :: 0 < m < n ==> !IsSpace(s[m])
    requires j < n
    ensures InRun(s, j)
    decreases j
  {
    if j > 0 {
      RunPositionsInRun(s, n, j - 1);
    }
  }

  /** The characters after the first one in a match starting at 0 are not `\s`. */
  lemma {:induction false} MatchHasNoSpace(s: string, n: nat)
    requires |s| > 0 && n == 1 + NonSpacePrefix(s[1..])
    ensures n <= |s|
    ensures forall m :: 0 < m < n ==> !IsSpace(s[m])
    ensures n < |s| ==> IsSpace(s[n])
  {
    forall m | 0 < m < n ensures !IsSpace(s[m]) {
      assert s[m] == s[1..][m - 1];
    }
    if n < |s| {
      assert s[n] == s[1..][n - 1];
    }
  }

  /** Inside the first match, title-casing agrees with the per-position description. */
  lemma {:induction false} FirstMatchIndex(s: string, n: nat, i: nat)
    requires |s| > 0 && IsWordChar(s[0]) && n == 1 + NonSpacePrefix(s[1..])
    requires i < n
    ensures i < |s| && ToTitleCase(s)[i] == TitleCaseAt(s, i)
  {
    MatchHasNoSpace(s, n);
    var head := Capitalize(s[..n]);
    assert ToTitleCase(s) == head + ToTitleCase(s[n..]);
    assert ToTitleCase(s)[i] == head[i];
    RunPositionsInRun(s, n, i);
    if i > 0 {
      RunPositionsInRun(s, n, i - 1);
      assert !StartsRun(s, i);
    }
  }

  /** Past the first match, title-casing continues on the rest of the
      string, which starts at a `\s`. */
  lemma {:induction false} SkipMatch(s: string, n: nat, i: nat)
    requires |s| > 0 && IsWordChar(s[0]) && n == 1 + NonSpacePrefix(s[1..])
    requires n <= i < |s|
    ensures ToTitleCase(s)[i] == ToTitleCase(s[n..])[i - n]
    ensures IsSpace(s[n])
  {
    MatchHasNoSpace(s, n);
    var head := Capitalize(s[..n]);
    assert |head| == n;
    assert ToTitleCase(s) == head + ToTitleCase(s[n..]);
  }

  /** Past a first character outside any match, title-casing continues on the rest. */
  lemma {:induction false} SkipOther(s: string, i: nat)
    requires 0 < i < |s| && !IsWordChar(s[0])
    ensures ToTitleCase(s)[i] == ToTitleCase(s[1..])[i - 1]
    ensures !InRun(s, 0)
  {
    assert ToTitleCase(s) == [s[0]] + ToTitleCase(s[1..]);
  }

  /** `ToTitleCase` meets the per-position description at `i`. */
  lemma {:induction false} TitleCaseIndex(s: string, i: nat)
    requires i < |s|
    ensures ToTitleCase(s)[i] == TitleCaseAt(s, i)
    decreases |s|
  {
    if IsWordChar(s[0]) {
      var n := 1 + NonSpacePrefix(s[1..]);
      if i < n {
        FirstMatchIndex(s, n, i);
      } else {
        SkipMatch(s, n, i);
        TitleCaseIndex(s[n..], i - n);
        TitleCaseAtShift(s, n, i - n);
      }
    } else if i > 0 {
      SkipOther(s, i);
      TitleCaseIndex(s[1..], i - 1);
      TitleCaseAtShift(s, 1, i - 1);
    }
  }

  /** `ToTitleCase` meets the per-position description: outside matches
      characters are kept, the first character of a match is upper-cased
      and the rest of it lower-cased. */
  lemma {:induction false} TitleCaseReference(s: string)
    ensures forall i :: 0 <= i < |s| ==> ToTitleCase(s)[i] == TitleCaseAt(s, i)
  {
    forall i | 0 <= i < |s| ensures ToTitleCase(s)[i] == TitleCaseAt(s, i) {
      TitleCaseIndex(s, i);
    }
  }

  /** Title-casing moves no whitespace: `\s` stays exactly where it was and
      every other character stays non-space. */
  lemma {:induction false} TitleCaseKeepsSpaces(s: string)
    ensures forall i :: 0 <= i < |s| ==> (IsSpace(ToTitleCase(s)[i]) <==> IsSpace(s[i]))
    ensures forall i :: 0 <= i < |s| && IsSpace(s[i]) ==> ToTitleCase(s)[i] == s[i]
  {
    TitleCaseReference(s);
  }

  // ----- extractUsernameFromEmail -----

  /** `email.split('@')[0]`: everything before the first '@', or all of it. */
  function ExtractUsernameFromEmail(email: string): (r: string)
    ensures |r| <= |email| && r == email[..|r|]
    ensures '@' !in r
    ensures |r| < |email| ==> email[|r|] == '@'
  {
    if email == [] || email[0] == '@' then []
    else [email[0]] + ExtractUsernameFromEmail(email[1..])
  }

  /** For an address `name@domain` whose name has no '@', the name comes back. */
  lemma {:induction false} ExtractsLocalPart(name: string, domain: string)
    requires '@' !in name
    ensures ExtractUsernameFromEmail(name + "@" + domain) == name
  {
    var e := name + "@" + domain;
    assert e[..|name|] == name && e[|name|] == '@';
    assert forall j :: 0 <= j < |name| ==> e[j] != '@';
  }

  // ----- isEmpty -----

  /** The JavaScript values `isEmpty` may be given. */
  datatype JsValue =
    | Null
    | Undefined
    | Str(s: string)
    | NumberValue(n: Number)
    | Bool(b: bool)
    | Array(elements: seq<JsValue>)
    | Object(keys: seq<string>)
    | FunctionValue

  function TypeOf(v: JsValue): string {
    match v
    case Null => "object"
    case Undefined => "undefined"
    case Str(_) => "string"
    case NumberValue(_) => "number"
    case Bool(_) => "boolean"
    case Array(_) => "object"
    case Object(_) => "object"
    case FunctionValue => "function"
  }

  /** `Object.keys(v).length` for a value whose type is "object"; an array's
      keys are its indices. `null` never reaches it. */
  function ObjectKeyCount(v: JsValue): nat {
    match v
    case Array(elements) => |elements|
    case Object(keys) => |keys|
    case _ => 0
  }

  /** `isEmpty(value)`. */
  function IsEmpty(v: JsValue): (b: bool)
    ensures v.Str? ==> (b <==> v.s == "")
    ensures v.Array? ==> (b <==> v.elements == [])
    ensures v.Object? ==> (b <==> v.keys == [])
    ensures v.NumberValue? || v.Bool? || v.FunctionValue? ==> !b
  {
    v == Null || v == Undefined || v == Str("")
    || (v.Array? && |v.elements| == 0)
    || (TypeOf(v) == "object" && ObjectKeyCount(v) == 0)
  }

  /** Exactly null, undefined, "", [] and {} are empty; numbers (0 too),
      booleans, functions, non-empty strings, arrays and objects are not. */
  lemma {:induction false} IsEmptyCases(v: JsValue)
    ensures IsEmpty(v) <==> v == Null || v == Undefined || v == Str("") || v == Array([]) || v == Object([])
    ensures v.NumberValue? || v.Bool? || v.FunctionValue? ==> !IsEmpty(v)
  {
  }
}
