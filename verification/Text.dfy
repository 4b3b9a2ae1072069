/** Strings as the browser's string methods see them: searching, splitting, joining and ASCII lower case. */
module Text {
  import opened Options

  function LowerChar(c: char): char {
    if 'A' <= c <= 'Z' then c - 'A' + 'a' else c
  }

  /** Two characters have the same lower case exactly if they are the same, or an ASCII letter in its two cases. */
  lemma SameLetter(c: char, d: char)
    ensures LowerChar(c) == LowerChar(d) <==>
            c == d || ('A' <= c <= 'Z' && d as int == c as int + 32) || ('A' <= d <= 'Z' && c as int == d as int + 32)
  {
  }

  function Lower(s: string): string {
    seq(|s|, i requires 0 <= i < |s| => LowerChar(s[i]))
  }

  predicate OccursAt(s: string, sub: string, i: nat) {
    i + |sub| <= |s| && s[i..i + |sub|] == sub
  }

  lemma OccursIn(s: string, sub: string, i: nat)
    requires OccursAt(s, sub, i)
    ensures forall k | i <= k < i + |sub| :: s[k] == sub[k - i]
  {
    assert forall k | i <= k < i + |sub| :: s[k] == s[i..i + |sub|][k - i];
  }

  /** A concatenation occurs where its parts occur one behind the other. */
  lemma OccursInParts(s: string, a: string, b: string, i: nat)
    ensures OccursAt(s, a + b, i) <==> OccursAt(s, a, i) && OccursAt(s, b, i + |a|)
  {
    if i + |a| + |b| <= |s| {
      assert s[i..i + |a + b|] == s[i..i + |a|] + s[i + |a|..i + |a| + |b|];
      if OccursAt(s, a + b, i) {
        assert s[i..i + |a|] == (a + b)[..|a|] && s[i + |a|..i + |a| + |b|] == (a + b)[|a|..];
      }
    }
  }

  /** `indexOf` from position `i`: the leftmost occurrence. */
  function IndexFrom(s: string, sub: string, i: nat): (r: Option<nat>)
    ensures r.Some? ==> i <= r.value && OccursAt(s, sub, r.value) && forall j: nat | i <= j < r.value :: !OccursAt(s, sub, j)
    ensures r.None? ==> forall j: nat | i <= j :: !OccursAt(s, sub, j)
    decreases |s| - i
  {
    if i + |sub| > |s| then None
    else if OccursAt(s, sub, i) then Some(i)
    else IndexFrom(s, sub, i + 1)
  }

  predicate Contains(s: string, sub: string) {
    IndexFrom(s, sub, 0).Some?
  }

  /** `split`: the pieces between the leftmost, non-overlapping occurrences of a separator. */
  function Split(s: string, sep: string): (parts: seq<string>)
    requires sep != ""
    ensures parts != []
    ensures forall k | 0 <= k < |parts| :: !Contains(parts[k], sep)
    decreases |s|
  {
    var i := IndexFrom(s, sep, 0);
    if i.None? then [s]
    else
      PrefixIsFree(s, sep, i.value);
      [s[..i.value]] + Split(s[i.value + |sep|..], sep)
  }

  function Join(parts: seq<string>, sep: string): string {
    if |parts| == 0 then ""
    else if |parts| == 1 then parts[0]
    else parts[0] + sep + Join(parts[1..], sep)
  }

  lemma PrefixIsFree(s: string, sep: string, i: nat)
    requires IndexFrom(s, sep, 0) == Some(i) && sep != ""
    ensures !Contains(s[..i], sep)
  {
    forall j: nat
      ensures !OccursAt(s[..i], sep, j)
    {
      if j + |sep| <= i {
        assert !OccursAt(s, sep, j);
        assert s[..i][j..j + |sep|] == s[j..j + |sep|];
      }
    }
  }

  /** Joining undoes splitting, for every string. */
  lemma {:induction false} JoinSplit(s: string, sep: string)
    requires sep != ""
    ensures Join(Split(s, sep), sep) == s
    decreases |s|
  {
    var i := IndexFrom(s, sep, 0);
    if i.Some? {
      var rest := s[i.value + |sep|..];
      JoinSplit(rest, sep);
      assert Split(s, sep)[1..] == Split(rest, sep);
      assert s == s[..i.value] + sep + rest;
    }
  }

  /** A separator that cannot begin inside a piece and end in the separator that follows it. */
  predicate Separator(sep: string) {
    |sep| == 1 || (|sep| == 2 && sep[0] != sep[1])
  }

  lemma FirstSeparator(p: string, sep: string, rest: string)
    requires Separator(sep) && !Contains(p, sep)
    ensures IndexFrom(p + sep + rest, sep, 0) == Some(|p|)
  {
    var s := p + sep + rest;
    assert OccursAt(s, sep, |p|);
    forall j: nat | j < |p|
      ensures !OccursAt(s, sep, j)
    {
      assert !OccursAt(p, sep, j);
      if j + |sep| <= |p| {
        assert p[j..j + |sep|] == s[j..j + |sep|];
      } else {
        assert s[j + 1] == sep[0];
      }
    }
  }

  /** Splitting undoes joining when no piece holds the separator. */
  lemma {:induction false} SplitJoin(parts: seq<string>, sep: string)
    requires Separator(sep) && parts != [] && forall k | 0 <= k < |parts| :: !Contains(parts[k], sep)
    ensures Split(Join(parts, sep), sep) == parts
    decreases |parts|
  {
    if |parts| > 1 {
      var rest := Join(parts[1..], sep);
      FirstSeparator(parts[0], sep, rest);
      SplitJoin(parts[1..], sep);
      var s := parts[0] + sep + rest;
      assert s[..|parts[0]|] == parts[0] && s[|parts[0]| + |sep|..] == rest;
    }
  }

  lemma ContainsChar(s: string, c: char)
    ensures Contains(s, [c]) <==> c in s
  {
    if c in s {
      var i :| 0 <= i < |s| && s[i] == c;
      assert OccursAt(s, [c], i);
    }
    if Contains(s, [c]) {
      var i := IndexFrom(s, [c], 0).value;
      assert s[i] == s[i..i + 1][0];
    }
  }
}
