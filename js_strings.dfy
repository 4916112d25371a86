/**
 * The JavaScript string primitives the generator relies on: `trim`, the regular-expression
 * classes `\s` and `\w`, `toLowerCase`, `includes`/`indexOf`, `charAt(0).toUpperCase()`,
 * `replace(/\s+/g, '')` and the truthiness of optional string fields.
 */
module JsStrings {
  import opened Wrappers

  /** JavaScript's WhiteSpace and LineTerminator code points: what `\s` matches and `trim` removes. */
  predicate IsWhitespace(c: char) {
    var n := c as int;
    (0x09 <= n <= 0x0D) || n == 0x20 || n == 0xA0 || n == 0x1680 || (0x2000 <= n <= 0x200A)
    || n == 0x2028 || n == 0x2029 || n == 0x202F || n == 0x205F || n == 0x3000 || n == 0xFEFF
  }

  /** The class `\w`: ASCII letters, digits and the underscore. */
  predicate IsWordChar(c: char) {
    ('a' <= c <= 'z') || ('A' <= c <= 'Z') || ('0' <= c <= '9') || c == '_'
  }

  predicate AllWhitespace(s: string) {
    forall k :: 0 <= k < |s| ==> IsWhitespace(s[k])
  }

  /** Neither the first nor the last character is whitespace. */
  predicate NoEdgeWhitespace(s: string) {
    s == [] || (!IsWhitespace(s[0]) && !IsWhitespace(s[|s| - 1]))
  }

  /** Index of the first character at or after `i` that is not whitespace, or `|s|` when there is none. */
  function SkipForward(s: string, i: nat): (j: nat)
    requires i <= |s|
    ensures i <= j <= |s|
    ensures forall k :: i <= k < j ==> IsWhitespace(s[k])
    ensures j == |s| || !IsWhitespace(s[j])
    decreases |s| - i
  {
    if i == |s| || !IsWhitespace(s[i]) then i else SkipForward(s, i + 1)
  }

  /** Index just past the last character before `j` that is not whitespace, or 0 when there is none. */
  function SkipBackward(s: string, j: nat): (e: nat)
    requires j <= |s|
    ensures e <= j
    ensures forall k :: e <= k < j ==> IsWhitespace(s[k])
    ensures e == 0 || !IsWhitespace(s[e - 1])
  {
    if j == 0 || !IsWhitespace(s[j - 1]) then j else SkipBackward(s, j - 1)
  }

  /** `r` is the piece of `s` starting at `a`, with only whitespace on either side of it. */
  predicate CutAt(s: string, r: string, a: int) {
    && 0 <= a <= |s| - |r| && r == s[a..a + |r|]
    && (forall k :: 0 <= k < a ==> IsWhitespace(s[k]))
    && (forall k :: a + |r| <= k < |s| ==> IsWhitespace(s[k]))
  }

  /** `String.prototype.trim`: the result neither starts nor ends with whitespace. */
  function Trim(s: string): (r: string)
    ensures NoEdgeWhitespace(r)
  {
    var a := SkipForward(s, 0);
    var e := SkipBackward(s, |s|);
    if a < e then s[a..e] else []
  }

  /** `trim` keeps a contiguous piece of `s` and everything it cuts away on either side is whitespace. */
  lemma TrimCuts(s: string)
    ensures exists a :: CutAt(s, Trim(s), a)
  {
    var a := SkipForward(s, 0);
    assert CutAt(s, Trim(s), a);
  }

  /** Trimming text that already has no edge whitespace changes nothing. */
  lemma TrimNoEdge(s: string)
    requires NoEdgeWhitespace(s)
    ensures Trim(s) == s
  {
    if s != [] {
      assert SkipForward(s, 0) == 0;
      assert SkipBackward(s, |s|) == |s|;
      assert s[0..|s|] == s;
    }
  }

  /** A blank string trims to the empty string. */
  lemma TrimAllWhitespace(s: string)
    requires AllWhitespace(s)
    ensures Trim(s) == []
  {
  }

  /** `trim` is idempotent. */
  lemma TrimIdempotent(s: string)
    ensures Trim(Trim(s)) == Trim(s)
  {
    TrimNoEdge(Trim(s));
  }

  /** `toLowerCase` on one character (ASCII letters only). */
  function LowerChar(c: char): char {
    if 'A' <= c <= 'Z' then (c as int + 32) as char else c
  }

  /** `toUpperCase` on one character (ASCII letters only). */
  function UpperChar(c: char): char {
    if 'a' <= c <= 'z' then (c as int - 32) as char else c
  }

  /** `String.prototype.toLowerCase`, with the ASCII case mapping. */
  function ToLower(s: string): (r: string)
    ensures |r| == |s|
    ensures forall k :: 0 <= k < |s| ==> r[k] == LowerChar(s[k])
  {
    if s == [] then [] else [LowerChar(s[0])] + ToLower(s[1..])
  }

  /** Lower-casing twice is lower-casing once: routing on `ToLower(p)` is insensitive to case. */
  lemma ToLowerIdempotent(s: string)
    ensures ToLower(ToLower(s)) == ToLower(s)
  {
    var once := ToLower(s);
    var twice := ToLower(once);
    assert forall k :: 0 <= k < |s| ==> twice[k] == once[k];
  }

  /** `pat` occurs in `s` starting at index `k`. */
  predicate OccursAt(s: string, pat: string, k: nat) {
    k + |pat| <= |s| && s[k..k + |pat|] == pat
  }

  /** `s.indexOf(pat, from)`: the first occurrence at or after `from`. */
  function IndexOfFrom(s: string, pat: string, from: nat): (r: Option<nat>)
    ensures r.Some? ==> from <= r.value && OccursAt(s, pat, r.value)
    ensures r.Some? ==> forall k :: from <= k < r.value ==> !OccursAt(s, pat, k)
    ensures r.None? ==> forall k :: from <= k ==> !OccursAt(s, pat, k)
    decreases |s| - from
  {
    if from + |pat| > |s| then None
    else if s[from..from + |pat|] == pat then Some(from)
    else IndexOfFrom(s, pat, from + 1)
  }

  /** `s.includes(pat)`. */
  function Includes(s: string, pat: string): (b: bool)
    ensures b <==> exists k :: OccursAt(s, pat, k)
  {
    var r := IndexOfFrom(s, pat, 0);
    if r.None? then
      assert forall k :: !OccursAt(s, pat, k) by {
        forall k ensures !OccursAt(s, pat, k) { assert 0 <= k; }
      }
      false
    else true
  }

  /** A suffix occurs where it starts. */
  lemma OccursAtEnd(a: string, b: string)
    ensures OccursAt(a + b, b, |a|)
  {
    assert (a + b)[|a|..|a| + |b|] == b;
  }

  /** An occurrence with none before it, from `from` on, is the one `indexOf` reports. */
  lemma IndexOfFirst(s: string, pat: string, from: nat, at: nat)
    requires from <= at && OccursAt(s, pat, at)
    requires forall k :: from <= k < at ==> !OccursAt(s, pat, k)
    ensures IndexOfFrom(s, pat, from) == Some(at)
  {
    var r := IndexOfFrom(s, pat, from);
    assert r.Some?;
    assert !(r.value < at) && !(at < r.value);
  }

  /** Text placed between two pieces is included in the whole. */
  lemma IncludesMiddle(before: string, mid: string, after: string)
    ensures Includes(before + mid + after, mid)
  {
    var s := before + mid + after;
    assert s[|before|..|before| + |mid|] == mid;
    assert OccursAt(s, mid, |before|);
  }

  /** Text included in `s` stays included when something is put in front of `s`. */
  lemma IncludesPrefix(pre: string, s: string, pat: string)
    requires Includes(s, pat)
    ensures Includes(pre + s, pat)
  {
    var k: nat :| OccursAt(s, pat, k);
    assert (pre + s)[|pre| + k..|pre| + k + |pat|] == s[k..k + |pat|];
    assert OccursAt(pre + s, pat, |pre| + k);
  }

  /** `s.charAt(0).toUpperCase() + s.slice(1)`. */
  function Capitalize(s: string): (r: string)
    ensures |r| == |s|
    ensures s != [] ==> r[0] == UpperChar(s[0]) && r[1..] == s[1..]
  {
    if s == [] then [] else [UpperChar(s[0])] + s[1..]
  }

  /** `s.replace(/\s+/g, '')`: every whitespace character dropped, the rest kept in order. */
  function RemoveWhitespace(s: string): (r: string)
    ensures forall k :: 0 <= k < |r| ==> !IsWhitespace(r[k])
    ensures forall c :: c in r <==> c in s && !IsWhitespace(c)
    ensures AllWhitespace(s) ==> r == []
    ensures |s| == 1 ==> r == (if IsWhitespace(s[0]) then [] else s)
  {
    if s == [] then []
    else (if IsWhitespace(s[0]) then [] else [s[0]]) + RemoveWhitespace(s[1..])
  }

  /** Removing whitespace piecewise is removing it from the whole: the kept characters stay in order, repeats included. */
  lemma {:induction false} RemoveWhitespaceAppend(a: string, b: string)
    ensures RemoveWhitespace(a + b) == RemoveWhitespace(a) + RemoveWhitespace(b)
  {
    if a == [] {
      assert a + b == b;
    } else {
      assert (a + b)[1..] == a[1..] + b;
      RemoveWhitespaceAppend(a[1..], b);
    }
  }

  /** Text without whitespace is kept as it is. */
  lemma {:induction false} RemoveWhitespaceKeepsPlain(s: string)
    requires forall k :: 0 <= k < |s| ==> !IsWhitespace(s[k])
    ensures RemoveWhitespace(s) == s
  {
    if s != [] {
      RemoveWhitespaceKeepsPlain(s[1..]);
      assert [s[0]] + s[1..] == s;
    }
  }

  /** A space is removed entirely. */
  lemma RemoveWhitespaceOfSpace()
    ensures RemoveWhitespace(" ") == []
  {
    assert IsWhitespace(" "[0]);
  }

  /** Two words separated by a space are joined. */
  lemma RemoveWhitespaceJoinsWords(first: string, second: string)
    ensures RemoveWhitespace(first + " " + second) == RemoveWhitespace(first) + RemoveWhitespace(second)
  {
    RemoveWhitespaceOfSpace();
    RemoveWhitespaceAppend(first + " ", second);
    RemoveWhitespaceAppend(first, " ");
  }

  /** A JavaScript value used as a condition in `if (x)` or `x || d`: an absent or empty string is falsy. */
  predicate Truthy(o: Option<string>) {
    o.Some? && o.value != ""
  }

  /** `x || fallback` for an optional string. */
  function OrElse(o: Option<string>, fallback: string): (r: string)
    ensures Truthy(o) ==> r == o.value
    ensures !Truthy(o) ==> r == fallback
  {
    if Truthy(o) then o.value else fallback
  }

  /** `${x}` in a template literal: an absent value prints as "undefined". */
  function Show(o: Option<string>): string {
    match o
    case Some(s) => s
    case None => "undefined"
  }

  function HexDigit(n: nat): char
    requires n < 16
  {
    "0123456789abcdef"[n]
  }

  /** How `JSON.stringify` writes one character of a string. */
  function EscapeChar(c: char): string {
    if c == '"' then "\\\""
    else if c == '\\' then "\\\\"
    else if c == '\U{8}' then "\\b"
    else if c == '\t' then "\\t"
    else if c == '\n' then "\\n"
    else if c == '\U{C}' then "\\f"
    else if c == '\r' then "\\r"
    else if (c as int) < 0x20 then "\\u00" + [HexDigit(c as int / 16), HexDigit(c as int % 16)]
    else [c]
  }

  function EscapeChars(s: string): string {
    if s == [] then [] else EscapeChar(s[0]) + EscapeChars(s[1..])
  }

  /** `JSON.stringify` of a string: a double-quoted literal with the characters escaped. */
  function JsonQuote(s: string): (r: string)
    ensures |r| >= |s| + 2 && r[0] == '"' && r[|r| - 1] == '"'
  {
    EscapeLength(s);
    "\"" + EscapeChars(s) + "\""
  }

  /** A character `JSON.stringify` writes unchanged: no quote, no backslash, no control character. */
  predicate JsonPlain(c: char) {
    c != '"' && c != '\\' && (c as int) >= 0x20
  }

  /** Plain characters are written as they are. */
  lemma {:induction false} EscapeKeepsPlain(s: string)
    requires forall k :: 0 <= k < |s| ==> JsonPlain(s[k])
    ensures EscapeChars(s) == s
  {
    if s != [] {
      EscapeKeepsPlain(s[1..]);
      assert [s[0]] + s[1..] == s;
    }
  }

  /** Text of plain characters is quoted as it is, between two double quotes. */
  lemma JsonQuotePlain(s: string)
    requires forall k :: 0 <= k < |s| ==> JsonPlain(s[k])
    ensures JsonQuote(s) == "\"" + s + "\""
  {
    EscapeKeepsPlain(s);
  }

  /** Escaping distributes over concatenation, so every character is escaped on its own, in order. */
  lemma {:induction false} EscapeAppend(a: string, b: string)
    ensures EscapeChars(a + b) == EscapeChars(a) + EscapeChars(b)
  {
    if a == [] {
      assert a + b == b;
    } else {
      assert (a + b)[1..] == a[1..] + b;
      EscapeAppend(a[1..], b);
    }
  }

  lemma {:induction false} EscapeLength(s: string)
    ensures |EscapeChars(s)| >= |s|
  {
    if s != [] {
      EscapeLength(s[1..]);
    }
  }
}
