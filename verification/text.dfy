/** The string routines the pipeline uses, with Python's meaning:
    `str.strip()` with no argument, `str.split(sep)` on a one-character
    separator, `sep.join(parts)` and substring membership (`needle in hay`). */
module Text {

  /** Python's `str.isspace()` for one character: the ASCII whitespace and
      separators U+0009..U+000D and U+001C..U+001F, the space, and the
      Unicode space and line/paragraph separators. */
  predicate IsSpace(c: char) {
    var n := c as int;
    || 0x09 <= n <= 0x0D
    || 0x1C <= n <= 0x20
    || n == 0x85 || n == 0xA0 || n == 0x1680
    || 0x2000 <= n <= 0x200A
    || n == 0x2028 || n == 0x2029 || n == 0x202F || n == 0x205F || n == 0x3000
  }

  ghost predicate AllSpace(s: string) {
    forall k :: 0 <= k < |s| ==> IsSpace(s[k])
  }

  /** The first position at or after `i` that holds no whitespace, or `|s|`. */
  function SkipSpaces(s: string, i: nat): (j: nat)
    requires i <= |s|
    ensures i <= j <= |s|
    ensures forall k :: i <= k < j ==> IsSpace(s[k])
    ensures j < |s| ==> !IsSpace(s[j])
    decreases |s| - i
  {
    if i == |s| || !IsSpace(s[i]) then i else SkipSpaces(s, i + 1)
  }

  /** The position right after the last character before `j` that holds no
      whitespace, or `lo` when `s[lo..j]` is all whitespace. */
  function SkipSpacesBack(s: string, lo: nat, j: nat): (i: nat)
    requires lo <= j <= |s|
    ensures lo <= i <= j
    ensures forall k :: i <= k < j ==> IsSpace(s[k])
    ensures lo < i ==> !IsSpace(s[i - 1])
    decreases j
  {
    if j == lo || !IsSpace(s[j - 1]) then j else SkipSpacesBack(s, lo, j - 1)
  }

  /** `s[a..b]` is what remains of `s` when the whitespace at both ends is
      cut off: everything outside is whitespace and the slice neither starts
      nor ends with whitespace. */
  ghost predicate StripCut(s: string, a: int, b: int)
  {
    && 0 <= a <= b <= |s|
    && (forall k :: 0 <= k < a ==> IsSpace(s[k]))
    && (forall k :: b <= k < |s| ==> IsSpace(s[k]))
    && (a < b ==> !IsSpace(s[a]) && !IsSpace(s[b - 1]))
  }

  /** `s.strip()`: the slice of `s` left when the whitespace at both ends is
      removed. It neither starts nor ends with whitespace, and it is empty
      exactly when `s` is all whitespace. */
  function Strip(s: string): (t: string)
    ensures exists a, b :: StripCut(s, a, b) && t == s[a..b]
    ensures t == [] || (!IsSpace(t[0]) && !IsSpace(t[|t| - 1]))
    ensures t == [] <==> AllSpace(s)
  {
    var a := SkipSpaces(s, 0);
    var b := SkipSpacesBack(s, a, |s|);
    assert StripCut(s, a, b);
    s[a..b]
  }

  /** A string with no whitespace at either end is its own strip. */
  lemma StripKeeps(s: string)
    requires |s| > 0 && !IsSpace(s[0]) && !IsSpace(s[|s| - 1])
    ensures Strip(s) == s
  {
    var a := SkipSpaces(s, 0);
    var b := SkipSpacesBack(s, a, |s|);
    assert a == 0;
    assert b == |s|;
    assert Strip(s) == s[a..b];
  }

  /** Python's `needle in hay` on two strings. */
  predicate IsSubstring(needle: string, hay: string)
    decreases |hay|
  {
    needle <= hay || (|hay| > 0 && IsSubstring(needle, hay[1..]))
  }

  /** The position of the first occurrence of `c` in `s`. */
  function IndexOf(s: string, c: char): (i: nat)
    requires c in s
    ensures i < |s| && s[i] == c
    ensures c !in s[..i]
  {
    if s[0] == c then 0
    else
      var i := 1 + IndexOf(s[1..], c);
      assert s[..i] == [s[0]] + s[1..][..i - 1];
      i
  }

  /** `sep.join(parts)`. */
  function Join(parts: seq<string>, sep: char): string
  {
    if |parts| == 0 then ""
    else if |parts| == 1 then parts[0]
    else parts[0] + [sep] + Join(parts[1..], sep)
  }

  /** `s.split(sep)`: the pieces of `s` between occurrences of `sep`. There is
      always at least one piece, no piece contains `sep`, there is more than
      one exactly when `sep` occurs in `s`, and joining the pieces with `sep`
      gives back `s`. */
  function Split(s: string, sep: char): (parts: seq<string>)
    ensures |parts| >= 1
    ensures forall k :: 0 <= k < |parts| ==> sep !in parts[k]
    ensures |parts| > 1 <==> sep in s
    ensures Join(parts, sep) == s
    decreases |s|
  {
    if sep !in s then [s]
    else
      var i := IndexOf(s, sep);
      var rest := Split(s[i + 1..], sep);
      assert s == s[..i] + [sep] + s[i + 1..];
      assert ([s[..i]] + rest)[1..] == rest;
      [s[..i]] + rest
  }

  /** Splitting a string whose first `sep` comes right after `head` yields
      `head` followed by the pieces of what comes after that `sep`. */
  lemma SplitAfterHead(head: string, sep: char, tail: string)
    requires sep !in head
    ensures Split(head + [sep] + tail, sep) == [head] + Split(tail, sep)
  {
    var s := head + [sep] + tail;
    assert s[..|head|] == head;
    assert s[|head|] == sep;
    IndexOfIs(s, sep, |head|);
    assert s[|head| + 1..] == tail;
  }

  /** A position holding `c` with no `c` before it is the first occurrence. */
  lemma IndexOfIs(s: string, c: char, i: nat)
    requires i < |s| && s[i] == c && c !in s[..i]
    ensures c in s && IndexOf(s, c) == i
  {
    var j := IndexOf(s, c);
    assert forall k :: 0 <= k < i ==> s[..i][k] == s[k];
    assert forall k :: 0 <= k < j ==> s[..j][k] == s[k];
  }

  /** Splitting the join of pieces that do not contain the separator gives
      the pieces back: `Split` is a left inverse of `Join`. */
  lemma {:induction false} SplitJoin(parts: seq<string>, sep: char)
    requires |parts| >= 1
    requires forall k :: 0 <= k < |parts| ==> sep !in parts[k]
    ensures Split(Join(parts, sep), sep) == parts
    decreases |parts|
  {
    if |parts| > 1 {
      SplitJoin(parts[1..], sep);
      SplitAfterHead(parts[0], sep, Join(parts[1..], sep));
      assert parts == [parts[0]] + parts[1..];
    }
  }

  /** Splitting pieces joined with `sep` and followed by `sep` and a tail
      gives the pieces first, then the pieces of the tail. */
  lemma {:induction false} SplitJoinPrefix(parts: seq<string>, sep: char, tail: string)
    requires |parts| >= 1
    requires forall k :: 0 <= k < |parts| ==> sep !in parts[k]
    ensures Split(Join(parts, sep) + [sep] + tail, sep) == parts + Split(tail, sep)
    decreases |parts|
  {
    if |parts| == 1 {
      SplitAfterHead(parts[0], sep, tail);
      assert parts == [parts[0]];
    } else {
      var more := parts[1..];
      assert forall k :: 0 <= k < |more| ==> sep !in more[k] by {
        forall k | 0 <= k < |more| ensures sep !in more[k] {
          assert more[k] == parts[k + 1];
        }
      }
      SplitJoinPrefix(more, sep, tail);
      SplitJoinStep(parts, sep, tail);
    }
  }

  /** One step of `SplitJoinPrefix`: the first piece splits off. */
  lemma SplitJoinStep(parts: seq<string>, sep: char, tail: string)
    requires |parts| >= 2 && sep !in parts[0]
    requires Split(Join(parts[1..], sep) + [sep] + tail, sep) == parts[1..] + Split(tail, sep)
    ensures Split(Join(parts, sep) + [sep] + tail, sep) == parts + Split(tail, sep)
  {
    var more := parts[1..];
    assert Join(parts, sep) == parts[0] + [sep] + Join(more, sep);
    SeparatorAssoc(parts[0], Join(more, sep), tail, sep);
    SplitAfterHead(parts[0], sep, Join(more, sep) + [sep] + tail);
    ConsAppend(parts, Split(tail, sep));
  }

  lemma ConsAppend<T>(a: seq<T>, c: seq<T>)
    requires |a| >= 1
    ensures [a[0]] + (a[1..] + c) == a + c
  {
    assert a == [a[0]] + a[1..];
  }

  lemma SeparatorAssoc(a: string, b: string, c: string, sep: char)
    ensures (a + [sep] + b) + [sep] + c == a + [sep] + (b + [sep] + c)
  {
  }
}
