/** The JavaScript string operations the core relies on: `toLowerCase`, `includes`, `join` and `trim`. */
module JsText {

  predicate IsUpper(c: char) { 'A' <= c <= 'Z' }

  predicate IsLetter(c: char) { 'A' <= c <= 'Z' || 'a' <= c <= 'z' }

  /** One character of `toLowerCase`, on the ASCII range. */
  function LowerChar(c: char): char {
    if IsUpper(c) then (c as int + 32) as char else c
  }

  /** `s.toLowerCase()` */
  function ToLower(s: string): (r: string)
    ensures |r| == |s|
    ensures forall i :: 0 <= i < |s| ==> r[i] == LowerChar(s[i])
  {
    seq(|s|, i requires 0 <= i < |s| => LowerChar(s[i]))
  }

  lemma ToLowerIdempotent(s: string)
    ensures ToLower(ToLower(s)) == ToLower(s)
  {
    var once := ToLower(s);
    assert forall i :: 0 <= i < |s| ==> ToLower(once)[i] == once[i];
  }

  /** `sub` occurs in `s` starting at index `i`. */
  ghost predicate OccursAt(s: string, sub: string, i: int) {
    0 <= i && i + |sub| <= |s| && s[i..i + |sub|] == sub
  }

  /** `s.includes(sub)` */
  function Includes(s: string, sub: string): (r: bool)
    ensures r <==> exists i :: OccursAt(s, sub, i)
    decreases |s|
  {
    if |sub| > |s| then false
    else if s[..|sub|] == sub then (assert OccursAt(s, sub, 0); true)
    else (IncludesShift(s, sub); Includes(s[1..], sub))
  }

  /** Once `sub` is not a prefix of `s`, its occurrences in `s` are those in `s[1..]`, one index later. */
  lemma IncludesShift(s: string, sub: string)
    requires |sub| <= |s| && s[..|sub|] != sub
    ensures (exists i :: OccursAt(s, sub, i)) <==> (exists i :: OccursAt(s[1..], sub, i))
  {
    if i :| OccursAt(s, sub, i) {
      assert i != 0;
      assert s[1..][i - 1..i - 1 + |sub|] == s[i..i + |sub|];
      assert OccursAt(s[1..], sub, i - 1);
    }
    if i :| OccursAt(s[1..], sub, i) {
      assert s[1..][i..i + |sub|] == s[i + 1..i + 1 + |sub|];
      assert OccursAt(s, sub, i + 1);
    }
  }

  /** A needle whose first character never occurs in `s` is not included in it. */
  lemma NotIncludedWithoutFirstChar(s: string, sub: string)
    requires sub != [] && forall i :: 0 <= i < |s| ==> s[i] != sub[0]
    ensures !Includes(s, sub)
  {
    forall i | 0 <= i ensures !OccursAt(s, sub, i) {
      if i + |sub| <= |s| {
        assert s[i..i + |sub|][0] == s[i];
      }
    }
  }

  /** A needle without letters occurs at `i` in `s` exactly when it occurs there in `s.toLowerCase()`. */
  lemma OccursAtIgnoresCase(s: string, sub: string, i: int)
    requires forall k :: 0 <= k < |sub| ==> !IsLetter(sub[k])
    ensures OccursAt(ToLower(s), sub, i) <==> OccursAt(s, sub, i)
  {
    if 0 <= i && i + |sub| <= |s| {
      var lower := ToLower(s);
      if lower[i..i + |sub|] == sub {
        forall k | 0 <= k < |sub| ensures s[i + k] == sub[k] {
          assert lower[i + k] == sub[k];
        }
        assert s[i..i + |sub|] == sub;
      }
      if s[i..i + |sub|] == sub {
        forall k | 0 <= k < |sub| ensures lower[i + k] == sub[k] {
          assert s[i + k] == sub[k];
        }
        assert lower[i..i + |sub|] == sub;
      }
    }
  }

  /** A needle without letters is found in `s` exactly when it is found in `s.toLowerCase()`. */
  lemma IncludesIgnoresCase(s: string, sub: string)
    requires forall k :: 0 <= k < |sub| ==> !IsLetter(sub[k])
    ensures Includes(ToLower(s), sub) == Includes(s, sub)
  {
    forall i | OccursAt(s, sub, i) ensures OccursAt(ToLower(s), sub, i) {
      OccursAtIgnoresCase(s, sub, i);
    }
    forall i | OccursAt(ToLower(s), sub, i) ensures OccursAt(s, sub, i) {
      OccursAtIgnoresCase(s, sub, i);
    }
  }

  /** The total length of the parts. */
  function TotalLength(parts: seq<string>): nat {
    if parts == [] then 0 else |parts[0]| + TotalLength(parts[1..])
  }

  /** `parts.join(sep)` */
  function Join(parts: seq<string>, sep: string): (r: string)
    ensures parts == [] ==> r == ""
    ensures |parts| == 1 ==> r == parts[0]
    ensures parts != [] ==> |r| == TotalLength(parts) + (|parts| - 1) * |sep|
    ensures parts != [] ==> |r| >= |parts[0]| && r[..|parts[0]|] == parts[0]
    ensures |parts| >= 2 ==> r[|parts[0]|..|parts[0]| + |sep|] == sep
  {
    if parts == [] then ""
    else if |parts| == 1 then parts[0]
    else parts[0] + sep + Join(parts[1..], sep)
  }

  /** Joining one more part appends the separator and that part. */
  lemma {:induction false} JoinAppend(parts: seq<string>, x: string, sep: string)
    requires parts != []
    ensures Join(parts + [x], sep) == Join(parts, sep) + sep + x
    decreases |parts|
  {
    var longer := parts + [x];
    assert longer[0] == parts[0] && |longer| >= 2;
    if |parts| == 1 {
      assert longer[1..] == [x];
    } else {
      assert longer[1..] == parts[1..] + [x];
      JoinAppend(parts[1..], x, sep);
      ConcatRegroup(parts[0], sep, Join(parts[1..], sep), x);
    }
  }

  lemma ConcatRegroup(a: string, sep: string, rest: string, x: string)
    ensures a + sep + (rest + sep + x) == a + sep + rest + sep + x
  {
  }

  /** The WhiteSpace and LineTerminator code points of ECMAScript, which `trim` removes. */
  predicate IsJsWhitespace(c: char) {
    || c == '\t' || c == '\n' || c == '\U{000B}' || c == '\U{000C}' || c == '\r' || c == ' '
    || c == '\U{00A0}' || c == '\U{1680}' || ('\U{2000}' <= c <= '\U{200A}')
    || c == '\U{2028}' || c == '\U{2029}' || c == '\U{202F}' || c == '\U{205F}'
    || c == '\U{3000}' || c == '\U{FEFF}'
  }

  /** Removes the longest whitespace prefix. */
  function TrimStart(s: string): (r: string)
    ensures |r| <= |s| && r == s[|s| - |r|..]
    ensures forall k :: 0 <= k < |s| - |r| ==> IsJsWhitespace(s[k])
    ensures r == [] || !IsJsWhitespace(r[0])
  {
    if s != [] && IsJsWhitespace(s[0]) then TrimStart(s[1..]) else s
  }

  /** Removes the longest whitespace suffix. */
  function TrimEnd(s: string): (r: string)
    ensures |r| <= |s| && r == s[..|r|]
    ensures forall k :: |r| <= k < |s| ==> IsJsWhitespace(s[k])
    ensures r == [] || !IsJsWhitespace(r[|r| - 1])
  {
    if s != [] && IsJsWhitespace(s[|s| - 1]) then TrimEnd(s[..|s| - 1]) else s
  }

  /** `r` is `s[a..b]`, and everything outside it is whitespace. */
  ghost predicate IsTrimmedSlice(s: string, r: string, a: int, b: int) {
    && 0 <= a <= b <= |s| && r == s[a..b]
    && (forall k :: 0 <= k < a ==> IsJsWhitespace(s[k]))
    && (forall k :: b <= k < |s| ==> IsJsWhitespace(s[k]))
  }

  /** `s.trim()` */
  function Trim(s: string): (r: string)
    ensures |r| <= |s|
    ensures exists a, b :: IsTrimmedSlice(s, r, a, b)
    ensures r == [] || (!IsJsWhitespace(r[0]) && !IsJsWhitespace(r[|r| - 1]))
    ensures (forall k :: 0 <= k < |s| ==> IsJsWhitespace(s[k])) <==> r == []
  {
    var start := TrimStart(s);
    var r := TrimEnd(start);
    SliceBetweenWhitespace(s, |s| - |start|, start, r);
    r
  }

  /**
   * Trimming keeps a slice: when `start` is `s` after whitespace, and `r` is `start` before whitespace,
   * then `r` is the slice of `s` between the two.
   */
  lemma SliceBetweenWhitespace(s: string, a: nat, start: string, r: string)
    requires a <= |s| && start == s[a..]
    requires forall k :: 0 <= k < a ==> IsJsWhitespace(s[k])
    requires |r| <= |start| && r == start[..|r|]
    requires forall k :: |r| <= k < |start| ==> IsJsWhitespace(start[k])
    ensures IsTrimmedSlice(s, r, a, a + |r|)
  {
    forall k | a + |r| <= k < |s| ensures IsJsWhitespace(s[k]) {
      assert s[k] == start[k - a];
    }
  }

  /** The code point of a character beyond the Basic Multilingual Plane, which UTF-16 stores as two units. */
  predicate IsAstral(c: char) {
    c as int > 0xFFFF
  }

  /** `s.length`: the number of UTF-16 code units of `s`. */
  function Utf16Length(s: string): (n: nat)
    ensures |s| <= n <= 2 * |s|
    ensures (forall k :: 0 <= k < |s| ==> !IsAstral(s[k])) ==> n == |s|
    ensures (forall k :: 0 <= k < |s| ==> IsAstral(s[k])) ==> n == 2 * |s|
  {
    if s == [] then 0 else (if IsAstral(s[0]) then 2 else 1) + Utf16Length(s[1..])
  }

  /** The code units of a concatenation are those of its halves. */
  lemma {:induction false} Utf16LengthAppend(a: string, b: string)
    ensures Utf16Length(a + b) == Utf16Length(a) + Utf16Length(b)
    decreases |a|
  {
    if a == [] {
      assert a + b == b;
    } else {
      Utf16LengthAppend(a[1..], b);
      assert (a + b)[0] == a[0];
      assert (a + b)[1..] == a[1..] + b;
    }
  }

  /** A character of the Basic Multilingual Plane and one beyond it are three code units. */
  lemma MixedUtf16Length()
    ensures Utf16Length("a\U{1F600}") == 3
  {
    assert "a\U{1F600}"[1..] == "\U{1F600}";
    assert "\U{1F600}"[1..] == "";
  }
}
