/** Session descriptions as lines: finding a line, and the payload type an rtpmap line declares. */
module Sdp {
  import opened Options
  import opened Text

  const CRLF: string := "\r\n"

  // ---------------------------------------------------------------- finding lines

  predicate Matches(line: string, prefix: string, substr: string) {
    prefix <= line && (substr == "" || Contains(Lower(line), Lower(substr)))
  }

  /** The first matching line at or after `i`. */
  function FindFrom(lines: seq<string>, i: nat, prefix: string, substr: string): (r: Option<nat>)
    requires i <= |lines|
    ensures r.Some? ==> i <= r.value < |lines| && Matches(lines[r.value], prefix, substr)
    ensures forall k | i <= k < (if r.Some? then r.value else |lines|) :: !Matches(lines[k], prefix, substr)
    decreases |lines| - i
  {
    if i == |lines| then None
    else if Matches(lines[i], prefix, substr) then Some(i)
    else FindFrom(lines, i + 1, prefix, substr)
  }

  function FindLine(lines: seq<string>, prefix: string, substr: string): (r: Option<nat>)
    ensures r.Some? ==> r.value < |lines| && Matches(lines[r.value], prefix, substr)
    ensures forall k | 0 <= k < (if r.Some? then r.value else |lines|) :: !Matches(lines[k], prefix, substr)
  {
    FindFrom(lines, 0, prefix, substr)
  }

  /** The search is decided by its result: a matching line with none before it. */
  lemma FindIs(lines: seq<string>, prefix: string, substr: string, k: nat)
    requires k < |lines| && Matches(lines[k], prefix, substr)
    requires forall j | 0 <= j < k :: !Matches(lines[j], prefix, substr)
    ensures FindLine(lines, prefix, substr) == Some(k)
  {
    var r := FindLine(lines, prefix, substr);
    assert r.Some? && !(r.value < k) && !(k < r.value);
  }

  lemma FindsNone(lines: seq<string>, prefix: string, substr: string)
    requires forall j | 0 <= j < |lines| :: !Matches(lines[j], prefix, substr)
    ensures FindLine(lines, prefix, substr) == None
  {
  }

  datatype Direction = Ascending | Descending

  /** An end of -1 means all lines when ascending; descending always goes down to the first line. */
  method FindLineInRange(lines: seq<string>, startLine: int, endLine: int, prefix: string, substr: string,
                         direction: Direction) returns (r: Option<nat>)
    requires direction.Ascending? ==> 0 <= startLine && -1 <= endLine <= |lines|
    requires direction.Descending? ==> -1 <= startLine < |lines|
    ensures r.Some? ==> r.value < |lines| && Matches(lines[r.value], prefix, substr)
    ensures direction.Ascending? ==>
              var end := if endLine == -1 then |lines| else endLine;
              && (r.Some? ==> startLine <= r.value < end)
              && forall k | startLine <= k < (if r.Some? then r.value else end) :: !Matches(lines[k], prefix, substr)
    ensures direction.Descending? ==>
              var start := if startLine == -1 then |lines| - 1 else startLine;
              && (r.Some? ==> r.value <= start)
              && forall k | (if r.Some? then r.value as int else -1) < k <= start :: !Matches(lines[k], prefix, substr)
  {
    if direction.Ascending? {
      var realEndLine := if endLine != -1 then endLine else |lines|;
      var i := startLine;
      while i < realEndLine
        invariant startLine <= i
        invariant forall k | startLine <= k < i && k < realEndLine :: !Matches(lines[k], prefix, substr)
      {
        if prefix <= lines[i] {
          if substr == "" || Contains(Lower(lines[i]), Lower(substr)) { return Some(i); }
        }
        i := i + 1;
      }
    } else {
      var realStartLine := if startLine != -1 then startLine else |lines| - 1;
      var j := realStartLine;
      while j >= 0
        invariant -1 <= j <= realStartLine
        invariant forall k | j < k <= realStartLine :: !Matches(lines[k], prefix, substr)
      {
        if prefix <= lines[j] {
          if substr == "" || Contains(Lower(lines[j]), Lower(substr)) { return Some(j); }
        }
        j := j - 1;
      }
    }
    return None;
  }

  // ---------------------------------------------------------------- payload types

  predicate IsDigit(c: char) {
    '0' <= c <= '9'
  }

  predicate IsNameChar(c: char) {
    'a' <= c <= 'z' || 'A' <= c <= 'Z' || IsDigit(c) || c == '-'
  }

  /** One or more digits, which is what the patterns capture. */
  predicate Digits(s: string) {
    s != "" && forall k | 0 <= k < |s| :: IsDigit(s[k])
  }

  /** The end of the longest run of such characters that starts at `i`. */
  function RunEnd(s: string, i: nat, class_: char -> bool): (e: nat)
    requires i <= |s|
    ensures i <= e <= |s| && (forall k | i <= k < e :: class_(s[k])) && (e < |s| ==> !class_(s[e]))
    decreases |s| - i
  {
    if i < |s| && class_(s[i]) then RunEnd(s, i + 1, class_) else i
  }

  /** `a=rtpmap:(\d+) [a-zA-Z0-9-]+\/\d+` at position `i`; no class contains what must follow it, so longest runs do. */
  function RtpmapAt(s: string, i: nat): (r: Option<string>)
    ensures r.Some? ==> Digits(r.value)
  {
    var d := i + |"a=rtpmap:"|;
    if !OccursAt(s, "a=rtpmap:", i) then None
    else
      var e := RunEnd(s, d, IsDigit);
      if e == d || e == |s| || s[e] != ' ' then None
      else
        var f := RunEnd(s, e + 1, IsNameChar);
        if f == e + 1 || f + 1 >= |s| || s[f] != '/' || !IsDigit(s[f + 1]) then None else Some(s[d..e])
  }

  /** The leftmost match of the pattern at or after `i`. */
  function RtpmapFrom(s: string, i: nat): (r: Option<string>)
    ensures r.Some? ==> Digits(r.value)
    decreases |s| - i
  {
    if i >= |s| then None
    else if RtpmapAt(s, i).Some? then RtpmapAt(s, i)
    else RtpmapFrom(s, i + 1)
  }

  function PayloadTypeFromLine(line: string): (r: Option<string>)
    ensures r.Some? ==> Digits(r.value)
  {
    RtpmapFrom(line, 0)
  }

  predicate IsName(s: string) {
    s != "" && forall k | 0 <= k < |s| :: IsNameChar(s[k])
  }

  /** The text at `i` is an rtpmap attribute for this payload type and encoding, with a clock rate behind it. */
  predicate Spells(s: string, i: nat, pt: string, name: string) {
    && Digits(pt) && IsName(name)
    && var m := "a=rtpmap:" + pt + " " + name + "/";
       OccursAt(s, m, i) && i + |m| < |s| && IsDigit(s[i + |m|])
  }

  ghost predicate Declares(s: string, i: nat, pt: string) {
    exists name :: Spells(s, i, pt, name)
  }

  lemma RunEndIs(s: string, i: nat, e: nat, class_: char -> bool)
    requires i <= e < |s| && (forall k | i <= k < e :: class_(s[k])) && !class_(s[e])
    ensures RunEnd(s, i, class_) == e
  {
  }

  /** The pieces of an attribute, at their places in the text. */
  lemma SpelledOut(s: string, i: nat, pt: string, name: string)
    ensures OccursAt(s, "a=rtpmap:" + pt + " " + name + "/", i) <==>
            && OccursAt(s, "a=rtpmap:", i) && OccursAt(s, pt, i + 9) && OccursAt(s, " ", i + 9 + |pt|)
            && OccursAt(s, name, i + 10 + |pt|) && OccursAt(s, "/", i + 10 + |pt| + |name|)
  {
    OccursInParts(s, "a=rtpmap:", pt, i);
    OccursInParts(s, "a=rtpmap:" + pt, " ", i);
    OccursInParts(s, "a=rtpmap:" + pt + " ", name, i);
    OccursInParts(s, "a=rtpmap:" + pt + " " + name, "/", i);
  }

  /** The scanner finds what the text spells. */
  lemma SpelledIsFound(s: string, i: nat, pt: string, name: string)
    requires Spells(s, i, pt, name)
    ensures RtpmapAt(s, i) == Some(pt)
  {
    SpelledOut(s, i, pt, name);
    var d := i + 9;
    var e := d + |pt|;
    var f := e + 1 + |name|;
    OccursIn(s, pt, d);
    OccursIn(s, name, e + 1);
    OccursIn(s, " ", e);
    OccursIn(s, "/", f);
    RunEndIs(s, d, e, IsDigit);
    RunEndIs(s, e + 1, f, IsNameChar);
  }

  lemma PiecesSpell(s: string, i: nat, e: nat, f: nat)
    requires i + 9 < e && e + 1 < f && f + 1 < |s| && OccursAt(s, "a=rtpmap:", i)
    requires (forall k | i + 9 <= k < e :: IsDigit(s[k])) && (forall k | e + 1 <= k < f :: IsNameChar(s[k]))
    requires s[e] == ' ' && s[f] == '/' && IsDigit(s[f + 1])
    ensures Declares(s, i, s[i + 9..e])
  {
    var pt, name := s[i + 9..e], s[e + 1..f];
    assert OccursAt(s, pt, i + 9) && OccursAt(s, name, e + 1);
    assert OccursAt(s, " ", e) && OccursAt(s, "/", f);
    SpelledOut(s, i, pt, name);
    assert Spells(s, i, pt, name);
  }

  /** And it finds nothing else. */
  lemma FoundIsSpelled(s: string, i: nat)
    requires RtpmapAt(s, i).Some?
    ensures Declares(s, i, RtpmapAt(s, i).value)
  {
    var d := i + 9;
    var e := RunEnd(s, d, IsDigit);
    var f := RunEnd(s, e + 1, IsNameChar);
    PiecesSpell(s, i, e, f);
  }

  lemma RtpmapAtIff(s: string, i: nat, pt: string)
    ensures RtpmapAt(s, i) == Some(pt) <==> Declares(s, i, pt)
  {
    if RtpmapAt(s, i).Some? { FoundIsSpelled(s, i); }
    if Declares(s, i, pt) {
      var name :| Spells(s, i, pt, name);
      SpelledIsFound(s, i, pt, name);
    }
  }

  /** `i` is the first place where the text declares a payload type. */
  ghost predicate DeclaresFirst(s: string, i: nat, pt: string) {
    Declares(s, i, pt) && forall j: nat, q | j < i :: !Declares(s, j, q)
  }

  lemma DeclaresOnce(s: string, i: nat, p: string, j: nat, q: string)
    requires DeclaresFirst(s, i, p) && DeclaresFirst(s, j, q)
    ensures p == q
  {
    assert i == j;
    RtpmapAtIff(s, i, p);
    RtpmapAtIff(s, i, q);
  }

  lemma NothingDeclared(s: string, i: nat)
    requires RtpmapAt(s, i).None?
    ensures forall q :: !Declares(s, i, q)
  {
    forall q: string
      ensures !Declares(s, i, q)
    {
      RtpmapAtIff(s, i, q);
    }
  }

  lemma {:induction false} LeftmostFrom(s: string, i: nat) returns (k: nat)
    ensures i <= k && forall j: nat, q | i <= j < k :: !Declares(s, j, q)
    ensures if RtpmapFrom(s, i).Some? then Declares(s, k, RtpmapFrom(s, i).value)
            else forall j: nat, q | i <= j :: !Declares(s, j, q)
    decreases |s| - i
  {
    k := i;
    if i < |s| && RtpmapAt(s, i).None? {
      NothingDeclared(s, i);
      k := LeftmostFrom(s, i + 1);
    } else if i < |s| {
      FoundIsSpelled(s, i);
    }
  }

  /** A payload type is read exactly if some place in the line is the first to declare one, and declares this one. */
  lemma PayloadTypeIff(line: string, pt: string)
    ensures PayloadTypeFromLine(line) == Some(pt) <==> exists i :: DeclaresFirst(line, i, pt)
    ensures PayloadTypeFromLine(line).None? <==> forall i, q :: !Declares(line, i, q)
  {
    var k := LeftmostFrom(line, 0);
    var r := PayloadTypeFromLine(line);
    if r.Some? {
      assert DeclaresFirst(line, k, r.value);
      if i :| DeclaresFirst(line, i, pt) { DeclaresOnce(line, k, r.value, i, pt); }
    }
  }

  /** The payload type of an rtpmap line is all of its digits, whatever stands behind the clock rate's first. */
  lemma RtpmapLineDeclares(pt: string, name: string, rest: string)
    requires Digits(pt) && IsName(name) && rest != "" && IsDigit(rest[0])
    ensures PayloadTypeFromLine("a=rtpmap:" + pt + " " + name + "/" + rest) == Some(pt)
  {
    var m := "a=rtpmap:" + pt + " " + name + "/";
    assert (m + rest)[0..|m|] == m;
    SpelledIsFound(m + rest, 0, pt, name);
  }

  // ---------------------------------------------------------------- line breaks

  /** A line break cannot form across another character. */
  lemma NoBreakAcross(a: string, c: char, b: string)
    requires !Contains(a, CRLF) && !Contains(b, CRLF) && c != '\r' && c != '\n'
    ensures !Contains(a + [c] + b, CRLF)
  {
    var s := a + [c] + b;
    forall i: nat
      ensures !OccursAt(s, CRLF, i)
    {
      if i + 2 <= |s| {
        assert s[i..i + 2] == [s[i], s[i + 1]];
        if i + 2 <= |a| {
          assert !OccursAt(a, CRLF, i) && a[i..i + 2] == [s[i], s[i + 1]];
        } else if i > |a| {
          var j := i - |a| - 1;
          assert !OccursAt(b, CRLF, j) && b[j..j + 2] == [s[i], s[i + 1]];
        } else {
          assert s[|a|] == c;
        }
      }
    }
  }

  lemma DigitsHaveNoBreak(s: string)
    requires Digits(s)
    ensures !Contains(s, CRLF) && !Contains(s, " ")
  {
    ContainsChar(s, ' ');
  }

  lemma {:induction false} JoinHasNoBreak(parts: seq<string>, c: char)
    requires c != '\r' && c != '\n' && forall k | 0 <= k < |parts| :: !Contains(parts[k], CRLF)
    ensures !Contains(Join(parts, [c]), CRLF)
    decreases |parts|
  {
    if |parts| > 1 {
      JoinHasNoBreak(parts[1..], c);
      NoBreakAcross(parts[0], c, Join(parts[1..], [c]));
      assert parts[0] + [c] + Join(parts[1..], [c]) == Join(parts, [c]);
    }
  }

  lemma PartHasNo(s: string, i: nat, j: nat, x: string)
    requires i <= j <= |s| && !Contains(s, x)
    ensures !Contains(s[i..j], x)
  {
    forall k: nat
      ensures !OccursAt(s[i..j], x, k)
    {
      assert !OccursAt(s, x, i + k);
      if k + |x| <= j - i {
        var a, b := s[i..j][k..k + |x|], s[i + k..i + k + |x|];
        assert forall m | 0 <= m < |x| :: a[m] == s[i..j][k + m];
        assert a == b;
      }
    }
  }

  lemma {:induction false} SplitHasNo(s: string, sep: string, x: string)
    requires sep != "" && !Contains(s, x)
    ensures forall k | 0 <= k < |Split(s, sep)| :: !Contains(Split(s, sep)[k], x)
    decreases |s|
  {
    var i := IndexFrom(s, sep, 0);
    if i.Some? {
      PartHasNo(s, 0, i.value, x);
      PartHasNo(s, i.value + |sep|, |s|, x);
      assert s[0..i.value] == s[..i.value] && s[i.value + |sep|..|s|] == s[i.value + |sep|..];
      SplitHasNo(s[i.value + |sep|..], sep, x);
    }
  }
}
