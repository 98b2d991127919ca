/** String primitives the triage engine relies on, with the meaning JavaScript
    gives them: `toLowerCase` (on ASCII letters), `trim`, `includes`,
    `replace(/_/g, ' ')`, `split` and `join`. */
module Text {

  /** Lower-cases one ASCII letter; every other character is left alone. */
  function LowerChar(c: char): char {
    if 'A' <= c <= 'Z' then (c as int + 32) as char else c
  }

  predicate IsUpper(c: char) {
    'A' <= c <= 'Z'
  }

  /** `s.toLowerCase()`, restricted to ASCII letters. */
  function Lower(s: string): (r: string)
    ensures |r| == |s|
    ensures forall i :: 0 <= i < |s| ==> r[i] == LowerChar(s[i])
  {
    seq(|s|, i requires 0 <= i < |s| => LowerChar(s[i]))
  }

  lemma {:induction false} LowerHasNoUpper(s: string)
    ensures forall i :: 0 <= i < |s| ==> !IsUpper(Lower(s)[i])
  {
  }

  /** A string without upper-case ASCII letters is its own lower-case form. */
  lemma LowerOfLower(s: string)
    requires forall i :: 0 <= i < |s| ==> !IsUpper(s[i])
    ensures Lower(s) == s
  {
  }

  /** The characters `String.prototype.trim` removes (ECMAScript WhiteSpace
      and LineTerminator). */
  predicate IsSpace(c: char) {
    c == ' ' || c == '\t' || c == '\n' || c == '\r' || c == '\U{B}' || c == '\U{C}'
    || c == '\U{A0}' || c == '\U{1680}' || ('\U{2000}' <= c <= '\U{200A}')
    || c == '\U{2028}' || c == '\U{2029}' || c == '\U{202F}' || c == '\U{205F}'
    || c == '\U{3000}' || c == '\U{FEFF}'
  }

  function TrimStart(s: string): (r: string)
    decreases |s|
  {
    if |s| > 0 && IsSpace(s[0]) then TrimStart(s[1..]) else s
  }

  function TrimEnd(s: string): (r: string)
    decreases |s|
  {
    if |s| > 0 && IsSpace(s[|s| - 1]) then TrimEnd(s[..|s| - 1]) else s
  }

  /** `s.trim()` */
  function Trim(s: string): string {
    TrimEnd(TrimStart(s))
  }

  /** True when `t` is a contiguous piece of `s`. */
  ghost predicate IsSlice(t: string, s: string) {
    exists i, j :: 0 <= i <= j <= |s| && t == s[i..j]
  }

  lemma {:induction false} TrimStartShape(s: string)
    ensures exists i :: 0 <= i <= |s| && TrimStart(s) == s[i..]
    ensures |TrimStart(s)| > 0 ==> !IsSpace(TrimStart(s)[0])
    decreases |s|
  {
    if |s| > 0 && IsSpace(s[0]) {
      TrimStartShape(s[1..]);
      var i :| 0 <= i <= |s[1..]| && TrimStart(s[1..]) == s[1..][i..];
      assert TrimStart(s) == s[i + 1..];
    } else {
      assert TrimStart(s) == s[0..];
    }
  }

  lemma {:induction false} TrimEndShape(s: string)
    ensures exists j :: 0 <= j <= |s| && TrimEnd(s) == s[..j]
    ensures |TrimEnd(s)| > 0 ==> !IsSpace(TrimEnd(s)[|TrimEnd(s)| - 1])
    decreases |s|
  {
    if |s| > 0 && IsSpace(s[|s| - 1]) {
      TrimEndShape(s[..|s| - 1]);
      var j :| 0 <= j <= |s[..|s| - 1]| && TrimEnd(s[..|s| - 1]) == s[..|s| - 1][..j];
      assert TrimEnd(s) == s[..j];
    } else {
      assert TrimEnd(s) == s[..|s|];
    }
  }

  /** `trim` returns a contiguous piece of its argument that neither starts
      nor ends with white space. */
  lemma TrimShape(s: string)
    ensures IsSlice(Trim(s), s)
    ensures |Trim(s)| > 0 ==> !IsSpace(Trim(s)[0]) && !IsSpace(Trim(s)[|Trim(s)| - 1])
  {
    TrimStartShape(s);
    var t := TrimStart(s);
    var i :| 0 <= i <= |s| && t == s[i..];
    TrimEndShape(t);
    var j :| 0 <= j <= |t| && TrimEnd(t) == t[..j];
    assert Trim(s) == t[..j];
    assert t[..j] == s[i..i + j];
    assert IsSlice(Trim(s), s);
    if |Trim(s)| > 0 {
      assert |t| > 0 && Trim(s)[0] == t[0];
    }
  }

  lemma {:induction false} TrimStartOfTrimmed(s: string)
    requires |s| > 0 ==> !IsSpace(s[0])
    ensures TrimStart(s) == s
  {
  }

  lemma {:induction false} TrimEndOfTrimmed(s: string)
    requires |s| > 0 ==> !IsSpace(s[|s| - 1])
    ensures TrimEnd(s) == s
  {
  }

  /** Trimming twice is trimming once. */
  lemma TrimIdempotent(s: string)
    ensures Trim(Trim(s)) == Trim(s)
  {
    TrimShape(s);
    var t := Trim(s);
    TrimStartOfTrimmed(t);
    TrimEndOfTrimmed(t);
  }

  /** Every character is white space. */
  predicate AllSpace(s: string) {
    forall j :: 0 <= j < |s| ==> IsSpace(s[j])
  }

  lemma {:induction false} TrimStartEmpty(s: string)
    ensures TrimStart(s) == [] <==> AllSpace(s)
    decreases |s|
  {
    if |s| > 0 && IsSpace(s[0]) {
      TrimStartEmpty(s[1..]);
      assert AllSpace(s) <==> AllSpace(s[1..]) by {
        assert forall j :: 0 < j < |s| ==> s[j] == s[1..][j - 1];
      }
    }
  }

  lemma {:induction false} TrimEndKeepsHead(s: string)
    requires |s| > 0 && !IsSpace(s[0])
    ensures |TrimEnd(s)| > 0
    decreases |s|
  {
    if IsSpace(s[|s| - 1]) {
      TrimEndKeepsHead(s[..|s| - 1]);
    }
  }

  /** `s.trim()` is empty exactly when `s` is all white space. */
  lemma TrimEmpty(s: string)
    ensures Trim(s) == [] <==> AllSpace(s)
  {
    TrimStartEmpty(s);
    TrimStartShape(s);
    if TrimStart(s) != [] {
      TrimEndKeepsHead(TrimStart(s));
    }
  }

  /** `s.replace(/_/g, ' ')` */
  function UnderscoresToSpaces(s: string): (r: string)
    ensures |r| == |s|
    ensures forall i :: 0 <= i < |s| ==> r[i] == (if s[i] == '_' then ' ' else s[i])
  {
    seq(|s|, i requires 0 <= i < |s| => if s[i] == '_' then ' ' else s[i])
  }

  predicate StartsWith(s: string, prefix: string) {
    |prefix| <= |s| && s[..|prefix|] == prefix
  }

  /** `hay.includes(needle)`: `needle` occurs in `hay` at some position (the
      empty string occurs everywhere). */
  predicate Contains(hay: string, needle: string)
    decreases |hay|
  {
    StartsWith(hay, needle) || (|hay| > 0 && Contains(hay[1..], needle))
  }

  /** An occurrence at position `i` is enough for `includes`. */
  lemma {:induction false} ContainsAt(hay: string, needle: string, i: nat)
    requires i + |needle| <= |hay| && hay[i..i + |needle|] == needle
    ensures Contains(hay, needle)
    decreases i
  {
    if i > 0 {
      assert hay[1..][i - 1..i - 1 + |needle|] == needle;
      ContainsAt(hay[1..], needle, i - 1);
    }
  }

  /** Conversely, `includes` always has a position to show for itself. */
  lemma {:induction false} ContainsIndex(hay: string, needle: string) returns (i: nat)
    requires Contains(hay, needle)
    ensures i + |needle| <= |hay| && hay[i..i + |needle|] == needle
    decreases |hay|
  {
    if StartsWith(hay, needle) {
      i := 0;
    } else {
      var k := ContainsIndex(hay[1..], needle);
      assert hay[k + 1..k + 1 + |needle|] == hay[1..][k..k + |needle|];
      i := k + 1;
    }
  }

  /** Occurrence is transitive: a piece of a piece is a piece. */
  lemma ContainsTrans(hay: string, mid: string, needle: string)
    requires Contains(hay, mid) && Contains(mid, needle)
    ensures Contains(hay, needle)
  {
    var i := ContainsIndex(hay, mid);
    var j := ContainsIndex(mid, needle);
    assert hay[i..i + |mid|] == mid;
    forall t | 0 <= t < |needle|
      ensures hay[i + j..i + j + |needle|][t] == needle[t]
    {
      assert hay[i + j + t] == hay[i..i + |mid|][j + t] == mid[j + t];
      assert mid[j..j + |needle|][t] == mid[j + t];
    }
    assert hay[i + j..i + j + |needle|] == needle;
    ContainsAt(hay, needle, i + j);
  }

  /** Whatever occurs in a part occurs in a longer string around it. */
  lemma ContainsInContext(pre: string, s: string, post: string, needle: string)
    requires Contains(s, needle)
    ensures Contains(pre + s + post, needle)
  {
    var i := ContainsIndex(s, needle);
    assert (pre + s + post)[|pre| + i..|pre| + i + |needle|] == s[i..i + |needle|];
    ContainsAt(pre + s + post, needle, |pre| + i);
  }

  /** Every string occurs in itself. */
  lemma ContainsSelf(s: string)
    ensures Contains(s, s)
  {
    assert s[0..|s|] == s;
    ContainsAt(s, s, 0);
  }

  /** How many keywords of `kws` occur in `text`. */
  function Hits(text: string, kws: seq<string>): (n: nat)
    ensures n <= |kws|
    decreases |kws|
  {
    if kws == [] then 0
    else Hits(text, kws[..|kws| - 1]) + (if Contains(text, kws[|kws| - 1]) then 1 else 0)
  }

  /** `kws.some(k => text.includes(k))` */
  predicate AnyOccurs(text: string, kws: seq<string>) {
    exists i :: 0 <= i < |kws| && Contains(text, kws[i])
  }

  lemma {:induction false} HitsZero(text: string, kws: seq<string>)
    ensures Hits(text, kws) == 0 <==> !AnyOccurs(text, kws)
    decreases |kws|
  {
    if kws != [] {
      var init := kws[..|kws| - 1];
      HitsZero(text, init);
      assert forall i :: 0 <= i < |init| ==> init[i] == kws[i];
    }
  }

  /** `s.split(sep)` for a single-character separator: the pieces between
      separators, always at least one (the empty string splits into `[""]`). */
  function SplitOn(s: string, sep: char): (r: seq<string>)
    ensures |r| >= 1
    decreases |s|
  {
    if s == [] then [""]
    else
      var rest := SplitOn(s[1..], sep);
      if s[0] == sep then [""] + rest else [[s[0]] + rest[0]] + rest[1..]
  }

  /** `s.split(' ')[0]`: everything before the first space. */
  function FirstWord(s: string): (r: string)
    decreases |s|
  {
    if s == [] || s[0] == ' ' then "" else [s[0]] + FirstWord(s[1..])
  }

  lemma {:induction false} FirstWordIsFirstPiece(s: string)
    ensures FirstWord(s) == SplitOn(s, ' ')[0]
    decreases |s|
  {
    if s != [] && s[0] != ' ' {
      FirstWordIsFirstPiece(s[1..]);
    }
  }

  /** The first word of `s` starts `s`, so it occurs in `s`. */
  lemma {:induction false} FirstWordIsPrefix(s: string)
    ensures StartsWith(s, FirstWord(s))
    decreases |s|
  {
    if s != [] && s[0] != ' ' {
      FirstWordIsPrefix(s[1..]);
    }
  }

  /** The first word of a phrase is whatever stands before its first space. */
  lemma {:induction false} FirstWordOfPhrase(w: string, rest: string)
    requires forall i :: 0 <= i < |w| ==> w[i] != ' '
    ensures FirstWord(w + " " + rest) == w
    decreases |w|
  {
    if w != [] {
      assert (w + " " + rest)[1..] == w[1..] + " " + rest;
      FirstWordOfPhrase(w[1..], rest);
    }
  }

  /** `parts.join(sep)` */
  function Join(parts: seq<string>, sep: string): string
    decreases |parts|
  {
    if |parts| == 0 then ""
    else if |parts| == 1 then parts[0]
    else parts[0] + sep + Join(parts[1..], sep)
  }

  /** A phrase found in one of the joined parts is found in the joined text. */
  lemma {:induction false} ContainsInJoin(parts: seq<string>, sep: string, k: nat, needle: string)
    requires k < |parts| && Contains(parts[k], needle)
    ensures Contains(Join(parts, sep), needle)
    decreases |parts|
  {
    if |parts| == 1 {
    } else if k == 0 {
      ContainsInContext("", parts[0], sep + Join(parts[1..], sep), needle);
      assert "" + parts[0] + (sep + Join(parts[1..], sep)) == Join(parts, sep);
    } else {
      ContainsInJoin(parts[1..], sep, k - 1, needle);
      ContainsInContext(parts[0] + sep, Join(parts[1..], sep), "", needle);
      assert parts[0] + sep + Join(parts[1..], sep) + "" == Join(parts, sep);
    }
  }

  /** Lower-casing commutes with joining when the separator has no capitals. */
  lemma {:induction false} LowerJoin(parts: seq<string>, sep: string)
    requires Lower(sep) == sep
    ensures Lower(Join(parts, sep)) == Join(seq(|parts|, i requires 0 <= i < |parts| => Lower(parts[i])), sep)
    decreases |parts|
  {
    var lowered := seq(|parts|, i requires 0 <= i < |parts| => Lower(parts[i]));
    if |parts| > 1 {
      LowerJoin(parts[1..], sep);
      assert lowered[1..] == seq(|parts[1..]|, i requires 0 <= i < |parts[1..]| => Lower(parts[1..][i]));
      assert Lower(parts[0] + sep + Join(parts[1..], sep)) == Lower(parts[0]) + Lower(sep) + Lower(Join(parts[1..], sep));
    }
  }
}
