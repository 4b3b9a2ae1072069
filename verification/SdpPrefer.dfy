/** Preferring a codec: the payload types that name it move to the front of the media line. */
module SdpPrefer {
  import opened Options
  import opened Text
  import opened Sdp

  // ---------------------------------------------------------------- what the code does

  function Three(fields: seq<string>): nat {
    if |fields| < 3 then |fields| else 3
  }

  /** The strings of `s` that are not in `drop`, in order. */
  function Without(s: seq<string>, drop: seq<string>): seq<string> {
    if s == [] then [] else (if s[0] in drop then [] else [s[0]]) + Without(s[1..], drop)
  }

  function Promote(fields: seq<string>, payload: string): seq<string> {
    fields[..Three(fields)] + [payload] + Without(fields[Three(fields)..], [payload])
  }

  /** One payload type after the other, the last one first. */
  function PromoteAll(fields: seq<string>, payloads: seq<string>): seq<string> {
    if payloads == [] then fields else Promote(PromoteAll(fields, payloads[1..]), payloads[0])
  }

  /** The payload types of the rtpmap lines for `codec` at or after `i`, in the order of the lines. */
  function Payloads(lines: seq<string>, i: nat, codec: string): seq<string>
    decreases |lines| - i
  {
    if i >= |lines| then []
    else if Matches(lines[i], "a=rtpmap", codec) && PayloadTypeFromLine(lines[i]).Some? then
      [PayloadTypeFromLine(lines[i]).value] + Payloads(lines, i + 1, codec)
    else Payloads(lines, i + 1, codec)
  }

  lemma {:induction false} PayloadsShift(a: seq<string>, b: seq<string>, i: nat, codec: string)
    requires i <= |b|
    ensures Payloads(a + b, |a| + i, codec) == Payloads(b, i, codec)
    decreases |b| - i
  {
    if i < |b| { PayloadsShift(a, b, i + 1, codec); }
  }

  lemma {:induction false} PayloadsPrefix(a: seq<string>, b: seq<string>, i: nat, codec: string)
    requires i <= |a|
    ensures Payloads(a + b, i, codec) == Payloads(a, i, codec) + Payloads(b, 0, codec)
    decreases |a| - i
  {
    if i < |a| {
      PayloadsPrefix(a, b, i + 1, codec);
    } else {
      PayloadsShift(a, b, 0, codec);
    }
  }

  lemma PayloadsAround(a: seq<string>, line: string, b: seq<string>, codec: string)
    ensures Payloads(a + [line] + b, 0, codec) ==
            Payloads(a, 0, codec) + Payloads([line], 0, codec) + Payloads(b, 0, codec)
  {
    PayloadsPrefix(a + [line], b, 0, codec);
    PayloadsPrefix(a, [line], 0, codec);
  }

  lemma PayloadOfLine(line: string, pt: string, codec: string)
    requires "a=rtpmap" <= line && PayloadTypeFromLine(line) == Some(pt)
    ensures Payloads([line], 0, codec) == if codec == "" || Contains(Lower(line), Lower(codec)) then [pt] else []
  {
    assert Payloads([line], 1, codec) == [];
  }

  lemma RtpmapPrefix(tail: string)
    ensures "a=rtpmap" <= "a=rtpmap:" + tail
  {
  }

  /** The promoted types of two stretches of lines follow one another, and an rtpmap line for the codec gives its type. */
  lemma PayloadsFollowTheLines(a: seq<string>, b: seq<string>, pt: string, name: string, rest: string, codec: string)
    requires Digits(pt) && IsName(name) && rest != "" && IsDigit(rest[0])
    ensures var line := "a=rtpmap:" + (pt + " " + name + "/" + rest);
            Payloads(a + [line] + b, 0, codec) ==
            Payloads(a, 0, codec) + (if codec == "" || Contains(Lower(line), Lower(codec)) then [pt] else []) +
            Payloads(b, 0, codec)
  {
    var line := "a=rtpmap:" + (pt + " " + name + "/" + rest);
    assert line == "a=rtpmap:" + pt + " " + name + "/" + rest;
    RtpmapLineDeclares(pt, name, rest);
    RtpmapPrefix(pt + " " + name + "/" + rest);
    PayloadOfLine(line, pt, codec);
    PayloadsAround(a, line, b, codec);
  }

  function Preferring(lines: seq<string>, m: nat, codec: string): seq<string>
    requires m < |lines|
  {
    lines[m := Join(PromoteAll(Split(lines[m], " "), Payloads(lines, 0, codec)), " ")]
  }

  /** `maybePreferCodec`. */
  function PreferCodec(sdp: string, media: string, codec: string): string {
    var lines := Split(sdp, CRLF);
    var m := FindLine(lines, "m=", media);
    if codec == "" || m.None? then sdp else Join(Preferring(lines, m.value, codec), CRLF)
  }

  // ---------------------------------------------------------------- what it should do

  /** The first occurrence of each string. */
  function Dedup(s: seq<string>): seq<string> {
    if s == [] then [] else [s[0]] + Without(Dedup(s[1..]), [s[0]])
  }

  /** The first three fields, then the preferred payload types in order, then the others in their old order. */
  function Partitioned(fields: seq<string>, payloads: seq<string>): seq<string> {
    fields[..Three(fields)] + Dedup(payloads) + Without(fields[Three(fields)..], payloads)
  }

  predicate Distinct(s: seq<string>) {
    forall i, j | 0 <= i < j < |s| :: s[i] != s[j]
  }

  lemma {:induction false} WithoutMembers(s: seq<string>, drop: seq<string>)
    ensures forall x :: x in Without(s, drop) <==> x in s && x !in drop
    ensures Distinct(s) ==> Distinct(Without(s, drop))
    ensures (forall x | x in s :: x !in drop) ==> Without(s, drop) == s
  {
    if s != [] {
      WithoutMembers(s[1..], drop);
      assert s == [s[0]] + s[1..];
    }
  }

  lemma DistinctCons(x: string, t: seq<string>)
    ensures Distinct([x] + t) <==> x !in t && Distinct(t)
  {
    var s := [x] + t;
    if Distinct(s) {
      forall k | 0 <= k < |t| ensures t[k] != x { assert s[0] == x && s[k + 1] == t[k]; }
      forall i, j | 0 <= i < j < |t| ensures t[i] != t[j] { assert s[i + 1] == t[i] && s[j + 1] == t[j]; }
    } else {
      var i, j :| 0 <= i < j < |s| && s[i] == s[j];
      assert s[j] == t[j - 1];
      if i > 0 { assert s[i] == t[i - 1]; }
    }
  }

  /** `Dedup` has the same members, each once; on payload types that are already distinct it changes nothing. */
  lemma {:induction false} DedupMembers(s: seq<string>)
    ensures forall x :: x in Dedup(s) <==> x in s
    ensures Distinct(Dedup(s))
    ensures Distinct(s) ==> Dedup(s) == s
  {
    if s != [] {
      var x, t := s[0], s[1..];
      DedupMembers(t);
      WithoutMembers(Dedup(t), [x]);
      assert s == [x] + t;
      DistinctCons(x, t);
      DistinctCons(x, Without(Dedup(t), [x]));
    }
  }

  lemma {:induction false} WithoutConcat(s: seq<string>, t: seq<string>, drop: seq<string>)
    ensures Without(s + t, drop) == Without(s, drop) + Without(t, drop)
  {
    if s == [] {
      assert s + t == t;
    } else {
      WithoutConcat(s[1..], t, drop);
      assert (s + t)[1..] == s[1..] + t;
      var head := if s[0] in drop then [] else [s[0]];
      assert Without(s + t, drop) == head + Without(s[1..] + t, drop);
    }
  }

  lemma {:induction false} WithoutTwice(s: seq<string>, x: string, drop: seq<string>)
    ensures Without(Without(s, drop), [x]) == Without(s, [x] + drop)
  {
    if s != [] {
      WithoutTwice(s[1..], x, drop);
      var head := if s[0] in drop then [] else [s[0]];
      WithoutConcat(head, Without(s[1..], drop), [x]);
    }
  }

  // ---------------------------------------------------------------- when the two agree

  lemma PartitionStep(first: seq<string>, others: seq<string>, p: string, rest: seq<string>)
    requires |first| == 3
    ensures Promote(Partitioned(first + others, rest), p) == Partitioned(first + others, [p] + rest)
  {
    var fields := first + others;
    assert fields[..3] == first && fields[3..] == others;
    var tail := Dedup(rest) + Without(others, rest);
    assert Partitioned(fields, rest) == first + tail;
    assert (first + tail)[..3] == first && (first + tail)[3..] == tail;
    WithoutConcat(Dedup(rest), Without(others, rest), [p]);
    WithoutTwice(others, p, rest);
    assert ([p] + rest)[1..] == rest;
  }

  lemma {:induction false} PromotionPartitions(fields: seq<string>, payloads: seq<string>)
    requires |fields| >= 3
    ensures PromoteAll(fields, payloads) == Partitioned(fields, payloads)
  {
    if payloads == [] {
      WithoutMembers(fields[3..], []);
      assert fields == fields[..3] + [] + fields[3..];
    } else {
      PromotionPartitions(fields, payloads[1..]);
      PartitionStep(fields[..3], fields[3..], payloads[0], payloads[1..]);
      assert fields == fields[..3] + fields[3..] && payloads == [payloads[0]] + payloads[1..];
    }
  }

  lemma {:induction false} PromotionGrows(fields: seq<string>, payloads: seq<string>)
    requires payloads != []
    ensures |PromoteAll(fields, payloads)| > Three(fields)
    ensures PromoteAll(fields, payloads)[Three(PromoteAll(fields, payloads[1..]))] == payloads[0]
  {
    if |payloads| > 1 { PromotionGrows(fields, payloads[1..]); }
  }

  lemma PartitionedOnce(fields: seq<string>, payloads: seq<string>, k: nat)
    requires |fields| < 3 && payloads != [] && |fields| < k < |Partitioned(fields, payloads)|
    ensures Partitioned(fields, payloads)[k] != payloads[0]
  {
    DedupMembers(payloads);
    assert Partitioned(fields, payloads) == fields + Dedup(payloads);
    assert Dedup(payloads)[k - |fields|] != Dedup(payloads)[0];
  }

  /** With fewer than three fields, a second payload type no longer reaches the place behind them. */
  lemma PromotionScrambles(fields: seq<string>, payloads: seq<string>)
    requires |fields| < 3 && |payloads| >= 2
    ensures PromoteAll(fields, payloads) != Partitioned(fields, payloads)
  {
    PromotionGrows(fields, payloads);
    PromotionGrows(fields, payloads[1..]);
    var k := Three(PromoteAll(fields, payloads[1..]));
    if k < |Partitioned(fields, payloads)| { PartitionedOnce(fields, payloads, k); }
  }

  lemma ShortPromotion(fields: seq<string>, payloads: seq<string>)
    requires |fields| < 3 && |payloads| <= 1
    ensures PromoteAll(fields, payloads) == Partitioned(fields, payloads)
  {
    if payloads != [] { assert payloads == [payloads[0]]; }
  }

  /** Promotion is the stable partition exactly when the line has its three fields or at most one type is promoted. */
  lemma PromotionPartitionsIff(fields: seq<string>, payloads: seq<string>)
    ensures PromoteAll(fields, payloads) == Partitioned(fields, payloads) <==> |fields| >= 3 || |payloads| <= 1
  {
    if |fields| >= 3 {
      PromotionPartitions(fields, payloads);
    } else if |payloads| <= 1 {
      ShortPromotion(fields, payloads);
    } else {
      PromotionScrambles(fields, payloads);
    }
  }

  // ---------------------------------------------------------------- from fields to descriptions

  /** Fields of one line: no space and no line break inside. */
  predicate Words(fields: seq<string>) {
    forall k | 0 <= k < |fields| :: !Contains(fields[k], " ") && !Contains(fields[k], CRLF)
  }

  lemma LineWords(line: string)
    requires !Contains(line, CRLF)
    ensures Words(Split(line, " "))
  {
    SplitHasNo(line, " ", CRLF);
  }

  lemma {:induction false} PayloadWords(lines: seq<string>, i: nat, codec: string)
    ensures Words(Payloads(lines, i, codec))
    decreases |lines| - i
  {
    if i < |lines| {
      PayloadWords(lines, i + 1, codec);
      if PayloadTypeFromLine(lines[i]).Some? { DigitsHaveNoBreak(PayloadTypeFromLine(lines[i]).value); }
    }
  }

  lemma {:induction false} WithoutWords(s: seq<string>, drop: seq<string>)
    requires Words(s)
    ensures Words(Without(s, drop))
  {
    if s != [] { WithoutWords(s[1..], drop); }
  }

  lemma {:induction false} PromoteWords(fields: seq<string>, payloads: seq<string>)
    requires Words(fields) && Words(payloads)
    ensures Words(PromoteAll(fields, payloads)) && |PromoteAll(fields, payloads)| >= |fields[..Three(fields)]|
    ensures fields != [] ==> PromoteAll(fields, payloads) != [] && PromoteAll(fields, payloads)[0] == fields[0]
  {
    if payloads != [] {
      PromoteWords(fields, payloads[1..]);
      var inner := PromoteAll(fields, payloads[1..]);
      WithoutWords(inner[Three(inner)..], [payloads[0]]);
    }
  }

  lemma {:induction false} DedupWords(s: seq<string>)
    requires Words(s)
    ensures Words(Dedup(s))
  {
    if s != [] {
      DedupWords(s[1..]);
      WithoutWords(Dedup(s[1..]), [s[0]]);
    }
  }

  lemma PartitionedWords(fields: seq<string>, payloads: seq<string>)
    requires fields != [] && Words(fields) && Words(payloads)
    ensures Words(Partitioned(fields, payloads)) && Partitioned(fields, payloads) != []
  {
    DedupWords(payloads);
    WithoutWords(fields[Three(fields)..], payloads);
  }

  /** One line of a description put in another's place can be told from the result. */
  lemma LineIsKept(lines: seq<string>, m: nat, fields: seq<string>)
    requires m < |lines| && fields != [] && Words(fields)
    requires forall k | 0 <= k < |lines| :: !Contains(lines[k], CRLF)
    ensures Split(Join(lines[m := Join(fields, " ")], CRLF), CRLF) == lines[m := Join(fields, " ")]
    ensures Split(Join(fields, " "), " ") == fields
  {
    JoinHasNoBreak(fields, ' ');
    SplitJoin(fields, " ");
    SplitJoin(lines[m := Join(fields, " ")], CRLF);
  }

  lemma {:induction false} KeptFields(lines: seq<string>, m: nat, a: seq<string>, b: seq<string>)
    requires m < |lines| && a != [] && b != [] && Words(a) && Words(b)
    requires forall k | 0 <= k < |lines| :: !Contains(lines[k], CRLF)
    ensures Join(lines[m := Join(a, " ")], CRLF) == Join(lines[m := Join(b, " ")], CRLF) <==> a == b
  {
    LineIsKept(lines, m, a);
    LineIsKept(lines, m, b);
    var x, y := lines[m := Join(a, " ")], lines[m := Join(b, " ")];
    if Join(x, CRLF) == Join(y, CRLF) {
      assert x[m] == y[m];
      assert a == Split(x[m], " ") == Split(y[m], " ") == b;
    }
  }

  /**
   Preferring a codec rewrites the media line and no other: it keeps its first three fields, then lists the payload
   types of that codec in the order of their rtpmap lines, then the rest in their old order - if and only if the line
   has three fields or at most one payload type is promoted.
   */
  lemma PreferPartitionsIff(sdp: string, media: string, codec: string)
    requires codec != "" && FindLine(Split(sdp, CRLF), "m=", media).Some?
    ensures var lines := Split(sdp, CRLF);
            var m := FindLine(lines, "m=", media).value;
            var fields, payloads := Split(lines[m], " "), Payloads(lines, 0, codec);
            && Split(PreferCodec(sdp, media, codec), CRLF) == Preferring(lines, m, codec)
            && (PreferCodec(sdp, media, codec) == Join(lines[m := Join(Partitioned(fields, payloads), " ")], CRLF)
                <==> |fields| >= 3 || |payloads| <= 1)
  {
    var lines := Split(sdp, CRLF);
    var m := FindLine(lines, "m=", media).value;
    var fields, payloads := Split(lines[m], " "), Payloads(lines, 0, codec);
    LineWords(lines[m]);
    PayloadWords(lines, 0, codec);
    PromoteWords(fields, payloads);
    PartitionedWords(fields, payloads);
    LineIsKept(lines, m, PromoteAll(fields, payloads));
    KeptFields(lines, m, PromoteAll(fields, payloads), Partitioned(fields, payloads));
    PromotionPartitionsIff(fields, payloads);
  }

  /** Two payload types on a media line with two fields come out in the wrong order. */
  lemma ShortLinesAreScrambled()
    ensures PromoteAll(["m=audio", "9"], ["111", "63"]) == ["m=audio", "9", "63", "111"]
    ensures Partitioned(["m=audio", "9"], ["111", "63"]) == ["m=audio", "9", "111", "63"]
  {
    var fields, payloads := ["m=audio", "9"], ["111", "63"];
    assert payloads[1..] == ["63"];
    assert PromoteAll(fields, ["63"]) == ["m=audio", "9", "63"];
    assert "63"[0] != "111"[0];
    assert Dedup(["63"]) == ["63"];
    assert Without(["63"], ["111"]) == ["63"];
  }

  // ---------------------------------------------------------------- when nothing is added or lost

  lemma {:induction false} WithoutCounts(s: seq<string>, drop: seq<string>, x: string)
    ensures multiset(Without(s, drop))[x] == if x in drop then 0 else multiset(s)[x]
  {
    if s != [] {
      WithoutCounts(s[1..], drop, x);
      assert s == [s[0]] + s[1..];
    }
  }

  lemma {:induction false} DedupCounts(s: seq<string>, x: string)
    ensures multiset(Dedup(s))[x] == if x in s then 1 else 0
  {
    if s != [] {
      DedupCounts(s[1..], x);
      WithoutCounts(Dedup(s[1..]), [s[0]], x);
      assert s == [s[0]] + s[1..];
    }
  }

  lemma PartitionedCounts(fields: seq<string>, payloads: seq<string>, x: string)
    ensures var others := fields[Three(fields)..];
            multiset(Partitioned(fields, payloads))[x] + (if x in payloads then multiset(others)[x] else 0) ==
            multiset(fields)[x] + (if x in payloads then 1 else 0)
  {
    DedupCounts(payloads, x);
    WithoutCounts(fields[Three(fields)..], payloads, x);
    assert fields == fields[..Three(fields)] + fields[Three(fields)..];
  }

  /** Every promoted payload type stands once, and only once, behind the first three fields. */
  predicate ListedOnce(fields: seq<string>, payloads: seq<string>) {
    forall p | p in payloads :: multiset(fields[Three(fields)..])[p] == 1
  }

  lemma PartitionPermutesIff(fields: seq<string>, payloads: seq<string>)
    ensures multiset(Partitioned(fields, payloads)) == multiset(fields) <==> ListedOnce(fields, payloads)
  {
    var before, after := multiset(fields), multiset(Partitioned(fields, payloads));
    if after == before {
      forall p | p in payloads ensures multiset(fields[Three(fields)..])[p] == 1 {
        PartitionedCounts(fields, payloads, p);
      }
    }
    if ListedOnce(fields, payloads) {
      forall x ensures after[x] == before[x] { PartitionedCounts(fields, payloads, x); }
    }
  }

  /** Promotion neither adds nor loses a field exactly when every promoted type was listed once. */
  lemma PromotionPermutesIff(fields: seq<string>, payloads: seq<string>)
    ensures multiset(PromoteAll(fields, payloads)) == multiset(fields) <==> ListedOnce(fields, payloads)
  {
    PromotionPartitionsIff(fields, payloads);
    if |fields| >= 3 || |payloads| <= 1 {
      PartitionPermutesIff(fields, payloads);
    } else {
      PromotionGrows(fields, payloads);
      assert |multiset(PromoteAll(fields, payloads))| > |multiset(fields)|;
      assert payloads[0] in payloads;
    }
  }

  /**
   The rewritten media line has the fields of the old one in another order if and only if every payload type of a
   matching rtpmap line is listed there, once: a type of another media section is added to the line.
   */
  lemma PreferPermutesIff(sdp: string, media: string, codec: string)
    requires codec != "" && FindLine(Split(sdp, CRLF), "m=", media).Some?
    ensures var lines := Split(sdp, CRLF);
            var m := FindLine(lines, "m=", media).value;
            var fields := Split(lines[m], " ");
            && m < |Split(PreferCodec(sdp, media, codec), CRLF)|
            && (multiset(Split(Split(PreferCodec(sdp, media, codec), CRLF)[m], " ")) == multiset(fields) <==>
                ListedOnce(fields, Payloads(lines, 0, codec)))
  {
    var lines := Split(sdp, CRLF);
    var m := FindLine(lines, "m=", media).value;
    var fields, payloads := Split(lines[m], " "), Payloads(lines, 0, codec);
    PreferPartitionsIff(sdp, media, codec);
    LineWords(lines[m]);
    PayloadWords(lines, 0, codec);
    PromoteWords(fields, payloads);
    LineIsKept(lines, m, PromoteAll(fields, payloads));
    PromotionPermutesIff(fields, payloads);
  }

  /** A type that the media line does not list is added to it. */
  lemma ForeignTypesAreAdded()
    ensures PromoteAll(["m=audio", "9", "RTP", "0"], ["96"]) == ["m=audio", "9", "RTP", "96", "0"]
  {
    assert "0"[0] != "96"[0];
    assert Without(["0"], ["96"]) == ["0"];
    assert ["m=audio", "9", "RTP", "0"][3..] == ["0"];
    assert PromoteAll(["m=audio", "9", "RTP", "0"], []) == ["m=audio", "9", "RTP", "0"];
  }

  // ---------------------------------------------------------------- the methods

  /** `setDefaultCodec`. */
  method SetDefaultCodec(mLine: string, payload: string) returns (r: string)
    ensures r == Join(Promote(Split(mLine, " "), payload), " ")
  {
    var elements := Split(mLine, " ");
    var newLine := elements[..Three(elements)];
    newLine := newLine + [payload];
    var i := 3;
    ghost var rest := elements[Three(elements)..];
    while i < |elements|
      invariant 3 <= i && (|elements| >= 3 ==> i <= |elements|)
      invariant |elements| >= 3 ==> newLine == elements[..3] + [payload] + Without(rest[..i - 3], [payload])
      invariant |elements| < 3 ==> newLine == elements + [payload]
    {
      WithoutConcat(rest[..i - 3], [elements[i]], [payload]);
      assert rest[..i - 2] == rest[..i - 3] + [elements[i]];
      if elements[i] != payload { newLine := newLine + [elements[i]]; }
      i := i + 1;
    }
    assert if |elements| >= 3 then rest[..|elements| - 3] == rest else rest == [];
    assert newLine == Promote(elements, payload);
    return Join(newLine, " ");
  }

  lemma MediaLineStays(line: string, payload: string)
    requires "m=" <= line
    ensures "m=" <= Join(Promote(Split(line, " "), payload), " ")
  {
    var fields := Split(line, " ");
    var i := IndexFrom(line, " ", 0);
    if i.Some? { assert line[i.value] == line[i.value..i.value + 1][0]; }
    assert "m=" <= fields[0];
    assert Promote(fields, payload)[0] == fields[0];
  }

  lemma {:induction false} PayloadsSkip(lines: seq<string>, i: nat, j: nat, codec: string)
    requires i <= j <= |lines| && forall k | i <= k < j :: !Matches(lines[k], "a=rtpmap", codec)
    ensures Payloads(lines, i, codec) == Payloads(lines, j, codec)
    decreases j - i
  {
    if i < j { PayloadsSkip(lines, i + 1, j, codec); }
  }

  lemma PromoteLine(line: string, fields: seq<string>, payloads: seq<string>, p: string)
    requires Split(line, " ") == PromoteAll(fields, payloads) && Words(PromoteAll(fields, payloads)) && Words([p])
    ensures Split(Join(Promote(Split(line, " "), p), " "), " ") == PromoteAll(fields, [p] + payloads)
    ensures Words(PromoteAll(fields, [p] + payloads))
  {
    assert ([p] + payloads)[1..] == payloads;
    PromotedWords(PromoteAll(fields, payloads), p);
    SplitJoin(Promote(PromoteAll(fields, payloads), p), " ");
  }

  lemma PromotedWords(fields: seq<string>, p: string)
    requires Words(fields) && Words([p])
    ensures Words(Promote(fields, p))
  {
    WithoutWords(fields[Three(fields)..], [p]);
    assert [p][0] == p;
  }

  /** The next rtpmap line going down, in lines whose media line has been rewritten. */
  method NextRtpmap(sdpLines: seq<string>, i: nat, codec: string, ghost lines: seq<string>, ghost m: nat)
    returns (index: Option<nat>)
    requires i < |lines| == |sdpLines| && m < |lines| && "m=" <= lines[m] && "m=" <= sdpLines[m]
    requires sdpLines == lines[m := sdpLines[m]]
    ensures index.None? ==> Payloads(lines, 0, codec) == Payloads(lines, i + 1, codec)
    ensures index.Some? ==>
              && index.value <= i && sdpLines[index.value] == lines[index.value]
              && Matches(lines[index.value], "a=rtpmap", codec)
              && Payloads(lines, index.value + 1, codec) == Payloads(lines, i + 1, codec)
  {
    index := FindLineInRange(sdpLines, i, 0, "a=rtpmap", codec, Descending);
    ghost var from := if index.Some? then index.value + 1 else 0;
    forall k | from <= k < i + 1
      ensures !Matches(lines[k], "a=rtpmap", codec)
    {
      assert !Matches(sdpLines[k], "a=rtpmap", codec);
      if k == m { assert lines[k][0] == 'm'; }
    }
    PayloadsSkip(lines, from, i + 1, codec);
    assert sdpLines[m][0] == 'm';
  }

  /** One payload type promoted on a media line that has had others promoted before. */
  method PromoteOn(mLine: string, payload: string, ghost fields: seq<string>, ghost payloads: seq<string>)
    returns (r: string)
    requires "m=" <= mLine && Digits(payload)
    requires Split(mLine, " ") == PromoteAll(fields, payloads) && Words(PromoteAll(fields, payloads))
    ensures "m=" <= r
    ensures Split(r, " ") == PromoteAll(fields, [payload] + payloads) && Words(PromoteAll(fields, [payload] + payloads))
  {
    DigitsHaveNoBreak(payload);
    PromoteLine(mLine, fields, payloads, payload);
    MediaLineStays(mLine, payload);
    r := SetDefaultCodec(mLine, payload);
  }

  /** The loop of `maybePreferCodec`: the matching rtpmap lines from the last to the first. */
  method PromoteLines(lines: seq<string>, m: nat, codec: string) returns (sdpLines: seq<string>)
    requires m < |lines| && "m=" <= lines[m] && !Contains(lines[m], CRLF)
    ensures sdpLines == Preferring(lines, m, codec)
  {
    sdpLines := lines;
    ghost var fields := Split(lines[m], " ");
    LineWords(lines[m]);
    var i := |sdpLines| - 1;
    while i >= 0
      invariant -1 <= i < |lines| == |sdpLines|
      invariant sdpLines == lines[m := sdpLines[m]] && "m=" <= sdpLines[m]
      invariant Words(PromoteAll(fields, Payloads(lines, i + 1, codec)))
      invariant Split(sdpLines[m], " ") == PromoteAll(fields, Payloads(lines, i + 1, codec))
    {
      var index := NextRtpmap(sdpLines, i, codec, lines, m);
      if index.None? {
        i := -1;
        break;
      }
      i := index.value;
      var payload := PayloadTypeFromLine(sdpLines[i]);
      if payload.Some? {
        var mLine := PromoteOn(sdpLines[m], payload.value, fields, Payloads(lines, i + 1, codec));
        sdpLines := sdpLines[m := mLine];
      }
      i := i - 1;
    }
    JoinSplit(sdpLines[m], " ");
  }

  method MaybePreferCodec(sdp: string, media: string, codec: string) returns (r: string)
    ensures r == PreferCodec(sdp, media, codec)
  {
    if codec == "" { return sdp; }
    var sdpLines := Split(sdp, CRLF);
    var mLineIndex := FindLineInRange(sdpLines, 0, -1, "m=", media, Ascending);
    if mLineIndex.None? {
      FindsNone(sdpLines, "m=", media);
      return sdp;
    }
    FindIs(sdpLines, "m=", media, mLineIndex.value);
    sdpLines := PromoteLines(sdpLines, mLineIndex.value, codec);
    return Join(sdpLines, CRLF);
  }
}
