/** Codec parameters: reading, writing, setting and removing the pairs of an fmtp line. */
module SdpParams {
  import opened Options
  import opened Text
  import opened Sdp

  // ---------------------------------------------------------------- parameter objects

  datatype Param = Param(name: string, value: string)

  /** An object with these properties, in the order in which they were added. */
  type Params = seq<Param>

  function Put(params: Params, name: string, value: string): Params {
    if params == [] then [Param(name, value)]
    else if params[0].name == name then [Param(name, value)] + params[1..]
    else [params[0]] + Put(params[1..], name, value)
  }

  function Delete(params: Params, name: string): Params {
    if params == [] then []
    else if params[0].name == name then params[1..]
    else [params[0]] + Delete(params[1..], name)
  }

  predicate Named(params: Params, name: string) {
    exists k :: 0 <= k < |params| && params[k].name == name
  }

  predicate DistinctNames(params: Params) {
    forall i, j | 0 <= i < j < |params| :: params[i].name != params[j].name
  }

  lemma {:induction false} PutPut(params: Params, name: string, v: string, w: string)
    ensures Put(Put(params, name, v), name, w) == Put(params, name, w)
  {
    if params != [] && params[0].name != name {
      PutPut(params[1..], name, v, w);
    }
  }

  lemma {:induction false} DeletePut(params: Params, name: string, v: string)
    ensures Delete(Put(params, name, v), name) == Delete(params, name)
  {
    if params != [] && params[0].name != name {
      DeletePut(params[1..], name, v);
    }
  }

  lemma {:induction false} PutIsNew(params: Params, name: string, v: string)
    requires !Named(params, name)
    ensures Put(params, name, v) == params + [Param(name, v)]
  {
    if params != [] {
      forall k | 0 <= k < |params[1..]| ensures params[1..][k].name != name { assert params[k + 1].name != name; }
      PutIsNew(params[1..], name, v);
    }
  }

  /** `k` is where the object has the property. */
  predicate NamedFirstAt(params: Params, name: string, k: nat) {
    k < |params| && params[k].name == name && forall j | 0 <= j < k :: params[j].name != name
  }

  /** A property that is there keeps its place and takes the new value; deleting it closes the gap. */
  lemma {:induction false} PutIsInPlace(params: Params, name: string, v: string, k: nat)
    requires NamedFirstAt(params, name, k)
    ensures Put(params, name, v) == params[k := Param(name, v)]
    ensures Delete(params, name) == params[..k] + params[k + 1..]
  {
    if k > 0 {
      PutIsInPlace(params[1..], name, v, k - 1);
      assert params == [params[0]] + params[1..];
      assert params[..k] == [params[0]] + params[1..][..k - 1];
    } else {
      assert params == [params[0]] + params[1..];
    }
  }

  lemma {:induction false} DeleteNothing(params: Params, name: string)
    requires !Named(params, name)
    ensures Delete(params, name) == params
  {
    if params != [] {
      forall k | 0 <= k < |params[1..]| ensures params[1..][k].name != name { assert params[k + 1].name != name; }
      DeleteNothing(params[1..], name);
    }
  }

  function Get(params: Params, name: string): Option<string> {
    if params == [] then None else if params[0].name == name then Some(params[0].value) else Get(params[1..], name)
  }

  lemma {:induction false} GetPut(params: Params, name: string, v: string, other: string)
    ensures Get(Put(params, name, v), other) == if other == name then Some(v) else Get(params, other)
  {
    if params != [] && params[0].name != name {
      GetPut(params[1..], name, v, other);
    }
  }

  /** Text that survives on an fmtp line. */
  predicate Clean(s: string) {
    !Contains(s, ";") && !Contains(s, "=")
  }

  predicate CleanParams(params: Params) {
    forall k | 0 <= k < |params| :: Clean(params[k].name) && Clean(params[k].value)
  }

  predicate Unbroken(params: Params) {
    forall k | 0 <= k < |params| :: !Contains(params[k].name, CRLF) && !Contains(params[k].value, CRLF)
  }

  /** The parameters an fmtp line can carry. */
  ghost predicate Writable(params: Params) {
    DistinctNames(params) && CleanParams(params) && Unbroken(params)
  }

  lemma {:induction false} PutMembers(params: Params, name: string, v: string)
    ensures Put(params, name, v) != []
    ensures forall p | p in Put(params, name, v) :: p in params || p == Param(name, v)
    ensures DistinctNames(params) ==> DistinctNames(Put(params, name, v))
  {
    if params != [] && params[0].name != name {
      var rest := params[1..];
      PutMembers(rest, name, v);
      assert params == [params[0]] + rest;
      if DistinctNames(params) {
        forall k | 0 <= k < |Put(rest, name, v)|
          ensures Put(rest, name, v)[k].name != params[0].name
        {
          assert Put(rest, name, v)[k] in Put(rest, name, v);
        }
      }
    }
  }

  lemma PutWritable(params: Params, name: string, v: string)
    requires Writable(params) && Clean(name) && Clean(v) && !Contains(name, CRLF) && !Contains(v, CRLF)
    ensures Writable(Put(params, name, v)) && Put(params, name, v) != []
  {
    PutMembers(params, name, v);
    var p := Put(params, name, v);
    forall k | 0 <= k < |p|
      ensures Clean(p[k].name) && Clean(p[k].value) && !Contains(p[k].name, CRLF) && !Contains(p[k].value, CRLF)
    {
      assert p[k] in p;
    }
  }

  lemma {:induction false} DeleteMembers(params: Params, name: string)
    ensures forall p | p in Delete(params, name) :: p in params
    ensures DistinctNames(params) ==> DistinctNames(Delete(params, name))
  {
    if params != [] && params[0].name != name {
      var rest := params[1..];
      DeleteMembers(rest, name);
      assert params == [params[0]] + rest;
      if DistinctNames(params) {
        forall k | 0 <= k < |Delete(rest, name)|
          ensures Delete(rest, name)[k].name != params[0].name
        {
          assert Delete(rest, name)[k] in Delete(rest, name);
        }
      }
    }
  }

  lemma DeleteWritable(params: Params, name: string)
    requires Writable(params)
    ensures Writable(Delete(params, name))
  {
    DeleteMembers(params, name);
    var p := Delete(params, name);
    forall k | 0 <= k < |p|
      ensures Clean(p[k].name) && Clean(p[k].value) && !Contains(p[k].name, CRLF) && !Contains(p[k].value, CRLF)
    {
      assert p[k] in p;
    }
  }

  // ---------------------------------------------------------------- one fmtp line

  datatype Fmtp = Fmtp(pt: string, params: Params)

  const FMTP: string := "a=fmtp:"

  /** `a=fmtp:(\d+)` at position `i`. */
  function FmtpAt(s: string, i: nat): (r: Option<string>)
    ensures r.Some? ==> Digits(r.value)
  {
    if !OccursAt(s, FMTP, i) then None
    else
      var e := RunEnd(s, i + |FMTP|, IsDigit);
      if e == i + |FMTP| then None else Some(s[i + |FMTP|..e])
  }

  function FmtpFrom(s: string, i: nat): (r: Option<string>)
    ensures r.Some? ==> Digits(r.value)
    decreases |s| - i
  {
    if i >= |s| then None
    else if FmtpAt(s, i).Some? then FmtpAt(s, i)
    else FmtpFrom(s, i + 1)
  }

  /** What follows the first space, or everything when there is none. */
  function AfterSpace(s: string): string {
    var space := IndexFrom(s, " ", 0);
    if space.None? then s else s[space.value + 1..]
  }

  function PutPiece(params: Params, piece: string): Params {
    var pair := Split(piece, "=");
    if |pair| == 2 then Put(params, pair[0], pair[1]) else params
  }

  function ParsePieces(pieces: seq<string>): Params {
    if pieces == [] then [] else PutPiece(ParsePieces(pieces[..|pieces| - 1]), pieces[|pieces| - 1])
  }

  function Parse(line: string): Option<Fmtp> {
    var pt := FmtpFrom(line, 0);
    if pt.None? then None else Some(Fmtp(pt.value, ParsePieces(Split(AfterSpace(line), ";"))))
  }

  function Piece(p: Param): string {
    p.name + "=" + p.value
  }

  function Pieces(params: Params): seq<string> {
    seq(|params|, i requires 0 <= i < |params| => Piece(params[i]))
  }

  function Line(pt: string, params: Params): string {
    FMTP + pt + " " + Join(Pieces(params), ";")
  }

  /** Without parameters there is no line. */
  function Write(f: Fmtp): Option<string> {
    if f.params == [] then None else Some(Line(f.pt, f.params))
  }

  lemma PieceSplits(p: Param)
    requires Clean(p.name) && Clean(p.value)
    ensures Split(Piece(p), "=") == [p.name, p.value] && !Contains(Piece(p), ";")
  {
    SplitJoin([p.name, p.value], "=");
    assert Join([p.name, p.value], "=") == Piece(p);
    ContainsChar(p.name, ';');
    ContainsChar(p.value, ';');
    ContainsChar(Piece(p), ';');
  }

  lemma PieceAdds(params: Params, p: Param)
    requires Clean(p.name) && Clean(p.value) && !Named(params, p.name)
    ensures PutPiece(params, Piece(p)) == params + [p]
  {
    PieceSplits(p);
    PutIsNew(params, p.name, p.value);
  }

  lemma PartsOf(params: Params, init: Params, last: Param)
    requires params == init + [last] && DistinctNames(params) && CleanParams(params)
    ensures DistinctNames(init) && CleanParams(init) && !Named(init, last.name) && Clean(last.name) && Clean(last.value)
  {
    assert params[|init|] == last;
    forall k | 0 <= k < |init| ensures init[k].name != last.name && Clean(init[k].name) && Clean(init[k].value) {
      assert params[k] == init[k];
    }
    forall i, j | 0 <= i < j < |init| ensures init[i].name != init[j].name {
      assert params[i] == init[i] && params[j] == init[j];
    }
  }

  lemma PiecesSnoc(init: Params, last: Param)
    ensures ParsePieces(Pieces(init + [last])) == PutPiece(ParsePieces(Pieces(init)), Piece(last))
  {
    assert Pieces(init + [last]) == Pieces(init) + [Piece(last)];
    assert (Pieces(init) + [Piece(last)])[..|init|] == Pieces(init);
  }

  lemma {:induction false} PiecesParse(params: Params)
    requires DistinctNames(params) && CleanParams(params)
    ensures ParsePieces(Pieces(params)) == params
    decreases |params|
  {
    if params != [] {
      var init, last := params[..|params| - 1], params[|params| - 1];
      assert params == init + [last];
      PartsOf(params, init, last);
      PiecesParse(init);
      PiecesSnoc(init, last);
      PieceAdds(init, last);
    }
  }

  /** The head of a written line. */
  lemma HeadParses(pt: string, body: string)
    requires Digits(pt)
    ensures FmtpFrom(FMTP + pt + " " + body, 0) == Some(pt)
    ensures AfterSpace(FMTP + pt + " " + body) == body
  {
    var head := FMTP + pt;
    var s := head + " " + body;
    assert s[..|FMTP|] == FMTP && OccursAt(s, FMTP, 0);
    var e := RunEnd(s, |FMTP|, IsDigit);
    assert forall k | |FMTP| <= k < |head| :: s[k] == pt[k - |FMTP|];
    assert s[|head|] == ' ';
    assert e == |head|;
    assert s[|FMTP|..e] == pt;
    assert FmtpAt(s, 0) == Some(pt);
    assert ' ' !in FMTP && forall k | 0 <= k < |pt| :: pt[k] != ' ';
    ContainsChar(head, ' ');
    FirstSeparator(head, " ", body);
    assert s[|head| + 1..] == body;
  }

  /** Parsing a written line gives back the payload type and the parameters. */
  lemma ParseWrite(f: Fmtp)
    requires Digits(f.pt) && f.params != [] && DistinctNames(f.params) && CleanParams(f.params)
    ensures Parse(Write(f).value) == Some(f)
  {
    var pieces := Pieces(f.params);
    forall k | 0 <= k < |pieces| ensures !Contains(pieces[k], ";") { PieceSplits(f.params[k]); }
    SplitJoin(pieces, ";");
    HeadParses(f.pt, Join(pieces, ";"));
    PiecesParse(f.params);
  }

  lemma TwoPieces(a: Param, b: Param)
    ensures Join(Pieces([a, b]), ";") == Piece(a) + ";" + Piece(b)
  {
    assert Pieces([a, b]) == [Piece(a), Piece(b)];
  }

  /** An fmtp line, letter by letter: the payload type up to the space, pairs cut at semicolons and equals signs. */
  lemma FmtpLineReads(pt: string, a: Param, b: Param)
    requires Digits(pt) && CleanParams([a, b]) && a.name != b.name
    ensures Parse("a=fmtp:" + pt + " " + (a.name + "=" + a.value + ";" + (b.name + "=" + b.value))) ==
            Some(Fmtp(pt, [a, b]))
  {
    ParseWrite(Fmtp(pt, [a, b]));
    TwoPieces(a, b);
  }

  /** A piece that is cut in two by one equals sign gives this name this value. */
  predicate Assigns(piece: string, name: string) {
    |Split(piece, "=")| == 2 && Split(piece, "=")[0] == name
  }

  /** Of several pieces for one name the last decides; any other piece is passed over. */
  lemma {:induction false} LastPieceWins(pieces: seq<string>, name: string, k: nat)
    requires k <= |pieces| && forall j | k <= j < |pieces| :: !Assigns(pieces[j], name)
    requires k > 0 ==> Assigns(pieces[k - 1], name)
    ensures Get(ParsePieces(pieces), name) == if k == 0 then None else Some(Split(pieces[k - 1], "=")[1])
    decreases |pieces|
  {
    if pieces != [] {
      var n := |pieces| - 1;
      var pair := Split(pieces[n], "=");
      if |pair| == 2 { GetPut(ParsePieces(pieces[..n]), pair[0], pair[1], name); }
      if k <= n { LastPieceWins(pieces[..n], name, k); }
    }
  }

  lemma {:induction false} ParsedPieces(pieces: seq<string>)
    requires forall k | 0 <= k < |pieces| :: !Contains(pieces[k], ";") && !Contains(pieces[k], CRLF)
    ensures Writable(ParsePieces(pieces))
    decreases |pieces|
  {
    if pieces != [] {
      var n := |pieces| - 1;
      ParsedPieces(pieces[..n]);
      SplitHasNo(pieces[n], "=", ";");
      SplitHasNo(pieces[n], "=", CRLF);
      var pair := Split(pieces[n], "=");
      if |pair| == 2 { PutWritable(ParsePieces(pieces[..n]), pair[0], pair[1]); }
    }
  }

  /** Whatever a line parses to can be written and read back. */
  lemma ParsedIsWritable(line: string)
    requires !Contains(line, CRLF) && Parse(line).Some?
    ensures Digits(Parse(line).value.pt) && Writable(Parse(line).value.params)
  {
    var space := IndexFrom(line, " ", 0);
    if space.Some? {
      PartHasNo(line, space.value + 1, |line|, CRLF);
      assert line[space.value + 1..|line|] == line[space.value + 1..];
    }
    var rest := AfterSpace(line);
    SplitHasNo(rest, ";", CRLF);
    ParsedPieces(Split(rest, ";"));
  }

  lemma WrittenLine(f: Fmtp)
    requires Digits(f.pt) && f.params != [] && Unbroken(f.params)
    ensures FMTP + f.pt <= Write(f).value && !Contains(Write(f).value, CRLF)
  {
    var pieces := Pieces(f.params);
    forall k | 0 <= k < |pieces|
      ensures !Contains(pieces[k], CRLF)
    {
      NoBreakAcross(f.params[k].name, '=', f.params[k].value);
    }
    JoinHasNoBreak(pieces, ';');
    var head := FMTP + f.pt;
    forall k: nat
      ensures !OccursAt(head, CRLF, k)
    {
      if k + 2 <= |head| { assert head[k..k + 2][0] == head[k] != '\r'; }
    }
    NoBreakAcross(head, ' ', Join(pieces, ";"));
  }

  /** A line found by its prefix carries a payload type that begins with the digits searched for. */
  lemma FoundLineParses(line: string, payload: string)
    requires Digits(payload) && FMTP + payload <= line
    ensures Parse(line).Some? && payload <= Parse(line).value.pt
  {
    assert line[..|FMTP|] == FMTP && OccursAt(line, FMTP, 0);
    var head := FMTP + payload;
    assert forall k | |FMTP| <= k < |head| :: line[k] == payload[k - |FMTP|];
    var e := RunEnd(line, |FMTP|, IsDigit);
    assert e >= |head|;
    assert FmtpAt(line, 0) == Some(line[|FMTP|..e]);
    assert line[..|head|] == head && head[|FMTP|..] == payload;
    assert line[|FMTP|..|head|] == line[..|head|][|FMTP|..];
    assert line[|FMTP|..e][..|payload|] == payload;
  }

  // ---------------------------------------------------------------- lines of a description

  /** `getCodecPayloadType`: a match on the very first line is taken for no match. */
  function CodecPayloadType(lines: seq<string>, codec: string): (r: Option<string>)
    ensures r.Some? ==> Digits(r.value)
  {
    var index := FindLine(lines, "a=rtpmap", codec);
    if index.None? || index.value == 0 then None else PayloadTypeFromLine(lines[index.value])
  }

  /** `findFmtpLine`: the first line that begins like an fmtp line for the payload type. */
  function FindFmtpLine(lines: seq<string>, codec: string): (r: Option<nat>)
    ensures r.Some? ==> r.value < |lines|
  {
    var payload := CodecPayloadType(lines, codec);
    if payload.None? then None else FindLine(lines, FMTP + payload.value, "")
  }

  datatype Fault = TypeError

  function Insert(lines: seq<string>, i: nat, line: string): seq<string>
    requires i <= |lines|
  {
    lines[..i] + [line] + lines[i..]
  }

  function Remove(lines: seq<string>, i: nat): seq<string>
    requires i < |lines|
  {
    lines[..i] + lines[i + 1..]
  }

  /** Where the parameters of a codec are, or would go. */
  datatype Place =
    | At(line: nat, fmtp: Fmtp)             // on an fmtp line
    | Behind(rtpmap: nat, payload: string)  // on a new line behind the rtpmap line
    | Undeclared                            // nowhere: no rtpmap line
    | Unnumbered                            // nowhere: an rtpmap line without a payload type
    | Unreadable                            // an fmtp line that does not parse

  function Locate(lines: seq<string>, codec: string): (p: Place)
    ensures Within(p, lines) && (p.Behind? ==> Digits(p.payload))
  {
    var k := FindFmtpLine(lines, codec);
    var index := FindLine(lines, "a=rtpmap", codec);
    if k.Some? then
      var f := Parse(lines[k.value]);
      if f.Some? then At(k.value, f.value) else Unreadable
    else if index.None? then Undeclared
    else
      var payload := PayloadTypeFromLine(lines[index.value]);
      if payload.Some? then Behind(index.value, payload.value) else Unnumbered
  }

  predicate Within(p: Place, lines: seq<string>) {
    (p.At? ==> p.line < |lines|) && (p.Behind? ==> p.rtpmap < |lines|)
  }

  /** What setting a parameter does to the lines; no payload type to write is the exception the source raises. */
  function SetAt(lines: seq<string>, p: Place, name: string, value: string): Result<seq<string>, Fault>
    requires Within(p, lines)
  {
    match p
    case At(k, f) => Ok(lines[k := Line(f.pt, Put(f.params, name, value))])
    case Behind(r, payload) => Ok(Insert(lines, r + 1, Line(payload, [Param(name, value)])))
    case Undeclared => Ok(lines)
    case _ => Err(TypeError)
  }

  function RemoveAt(lines: seq<string>, p: Place, name: string): Result<seq<string>, Fault>
    requires Within(p, lines)
  {
    match p
    case At(k, f) =>
      var line := Write(Fmtp(f.pt, Delete(f.params, name)));
      Ok(if line.None? then Remove(lines, k) else lines[k := line.value])
    case Unreadable => Err(TypeError)
    case _ => Ok(lines)
  }

  function SetLines(lines: seq<string>, codec: string, name: string, value: string): Result<seq<string>, Fault> {
    SetAt(lines, Locate(lines, codec), name, value)
  }

  function RemoveLines(lines: seq<string>, codec: string, name: string): Result<seq<string>, Fault> {
    RemoveAt(lines, Locate(lines, codec), name)
  }

  function Described(r: Result<seq<string>, Fault>): Result<string, Fault> {
    if r.Ok? then Ok(Join(r.value, CRLF)) else Err(r.error)
  }

  /** `setCodecParam` and `removeCodecParam`; lines that are not changed join to the description they were cut from. */
  function SetCodecParam(sdp: string, codec: string, name: string, value: string): Result<string, Fault> {
    Described(SetLines(Split(sdp, CRLF), codec, name, value))
  }

  function RemoveCodecParam(sdp: string, codec: string, name: string): Result<string, Fault> {
    Described(RemoveLines(Split(sdp, CRLF), codec, name))
  }

  // ---------------------------------------------------------------- where the line is afterwards

  predicate IsFmtp(line: string) {
    FMTP <= line
  }

  lemma FmtpIsNoRtpmap(line: string, codec: string)
    requires IsFmtp(line)
    ensures !Matches(line, "a=rtpmap", codec)
  {
    assert line[2] == FMTP[2];
  }

  lemma FoundIsFmtp(line: string, payload: string)
    requires FMTP + payload <= line
    ensures IsFmtp(line)
  {
    assert line[..|FMTP|] == FMTP;
  }

  /** Rewriting the fmtp line leaves it where the next search finds it. */
  lemma RewrittenIsFound(lines: seq<string>, codec: string, k: nat, line: string)
    requires FindFmtpLine(lines, codec) == Some(k)
    requires FMTP + CodecPayloadType(lines, codec).value <= line
    ensures FindFmtpLine(lines[k := line], codec) == Some(k)
    ensures CodecPayloadType(lines[k := line], codec) == CodecPayloadType(lines, codec)
  {
    var payload := CodecPayloadType(lines, codec).value;
    var r := FindLine(lines, "a=rtpmap", codec).value;
    var lines' := lines[k := line];
    FoundIsFmtp(lines[k], payload);
    FoundIsFmtp(line, payload);
    FmtpIsNoRtpmap(lines[k], codec);
    FmtpIsNoRtpmap(line, codec);
    FindIs(lines', "a=rtpmap", codec, r);
    FindIs(lines', FMTP + payload, "", k);
  }

  /** A new fmtp line right behind its rtpmap line is found, unless that one is the first line of all. */
  lemma InsertedIsFound(lines: seq<string>, codec: string, r: nat, payload: string, line: string)
    requires FindLine(lines, "a=rtpmap", codec) == Some(r) && PayloadTypeFromLine(lines[r]) == Some(payload)
    requires FindFmtpLine(lines, codec).None? && FMTP + payload <= line
    ensures var lines' := Insert(lines, r + 1, line);
            && FindLine(lines', "a=rtpmap", codec) == Some(r)
            && FindFmtpLine(lines', codec) == (if r == 0 then None else Some(r + 1))
            && (r > 0 ==> CodecPayloadType(lines', codec) == Some(payload))
  {
    var lines' := Insert(lines, r + 1, line);
    assert forall k | 0 <= k <= r :: lines'[k] == lines[k];
    FindIs(lines', "a=rtpmap", codec, r);
    if r > 0 { FindIs(lines', FMTP + payload, "", r + 1); }
  }

  // ---------------------------------------------------------------- finding it again

  /** Lines as splitting a description yields them. */
  predicate IsLines(lines: seq<string>) {
    lines != [] && forall k | 0 <= k < |lines| :: !Contains(lines[k], CRLF)
  }

  /** A name or value without separators. */
  predicate Plain(s: string) {
    Clean(s) && !Contains(s, CRLF)
  }

  /** What is found on a line can be written, under a payload type that begins with the codec's. */
  lemma LocatedIsWritable(lines: seq<string>, codec: string)
    requires IsLines(lines)
    ensures var p := Locate(lines, codec);
            && !p.Unreadable?
            && (p.At? ==> Digits(p.fmtp.pt) && Writable(p.fmtp.params) && CodecPayloadType(lines, codec).Some? &&
                          CodecPayloadType(lines, codec).value <= p.fmtp.pt)
  {
    var k := FindFmtpLine(lines, codec);
    if k.Some? {
      FoundLineParses(lines[k.value], CodecPayloadType(lines, codec).value);
      ParsedIsWritable(lines[k.value]);
    }
  }

  /** An fmtp line written over the one that was found is found again, and reads back as it was written. */
  lemma LocateRewritten(lines: seq<string>, codec: string, params: Params)
    requires IsLines(lines) && Locate(lines, codec).At? && params != [] && Writable(params)
    ensures var k, pt := Locate(lines, codec).line, Locate(lines, codec).fmtp.pt;
            var lines' := lines[k := Line(pt, params)];
            IsLines(lines') && Locate(lines', codec) == At(k, Fmtp(pt, params))
  {
    LocatedIsWritable(lines, codec);
    var k, pt := Locate(lines, codec).line, Locate(lines, codec).fmtp.pt;
    WrittenLine(Fmtp(pt, params));
    ParseWrite(Fmtp(pt, params));
    assert FMTP + CodecPayloadType(lines, codec).value <= FMTP + pt;
    RewrittenIsFound(lines, codec, k, Line(pt, params));
  }

  lemma InsertIsLines(lines: seq<string>, i: nat, line: string)
    requires IsLines(lines) && i <= |lines| && !Contains(line, CRLF)
    ensures IsLines(Insert(lines, i, line))
  {
  }

  /** A line written behind its rtpmap line is found again, unless the rtpmap line is the first line of all. */
  lemma LocateInserted(lines: seq<string>, codec: string, r: nat, payload: string, params: Params)
    requires IsLines(lines) && Locate(lines, codec) == Behind(r, payload) && params != [] && Writable(params)
    ensures var lines' := Insert(lines, r + 1, Line(payload, params));
            && IsLines(lines')
            && Locate(lines', codec) == (if r == 0 then Behind(0, payload) else At(r + 1, Fmtp(payload, params)))
  {
    var line := Line(payload, params);
    WrittenLine(Fmtp(payload, params));
    ParseWrite(Fmtp(payload, params));
    InsertIsLines(lines, r + 1, line);
    InsertedIsFound(lines, codec, r, payload, line);
    assert Insert(lines, r + 1, line)[r + 1] == line;
    assert Insert(lines, r + 1, line)[r] == lines[r];
  }

  /** A codec declared on the first line is never found again. */
  predicate DeclaredFirst(lines: seq<string>, codec: string) {
    FindLine(lines, "a=rtpmap", codec) == Some(0)
  }

  lemma LocateFirst(lines: seq<string>, codec: string)
    ensures Locate(lines, codec).At? || Locate(lines, codec).Undeclared? ==> !DeclaredFirst(lines, codec)
    ensures Locate(lines, codec).Behind? ==> (DeclaredFirst(lines, codec) <==> Locate(lines, codec).rtpmap == 0)
  {
  }

  // ---------------------------------------------------------------- what setting and removing do

  /** The lines differ in line `k` at most. */
  predicate OnlyLine(lines: seq<string>, lines': seq<string>, k: nat) {
    k < |lines| == |lines'| && lines' == lines[k := lines'[k]]
  }

  /** The lines `lines'` are `lines` with one more at `k`. */
  predicate OneLineMore(lines: seq<string>, lines': seq<string>, k: nat) {
    k <= |lines| && |lines'| == |lines| + 1 && lines' == Insert(lines, k, lines'[k])
  }

  /** What setting a parameter has done to lines where its codec is at `p`. */
  ghost predicate SetDone(lines: seq<string>, codec: string, p: Place, name: string, value: string,
                          r: Result<seq<string>, Fault>)
  {
    && (r.Err? <==> p.Unnumbered?)
    && (r.Ok? ==> IsLines(r.value))
    && (p.Undeclared? ==> r == Ok(lines))
    && (p.At? ==>
          && r.Ok? && OnlyLine(lines, r.value, p.line)
          && Locate(r.value, codec) == At(p.line, Fmtp(p.fmtp.pt, Put(p.fmtp.params, name, value))))
    && (p.Behind? ==>
          && r.Ok? && OneLineMore(lines, r.value, p.rtpmap + 1)
          && Locate(r.value, codec) == (if p.rtpmap == 0 then Behind(0, p.payload)
                                        else At(p.rtpmap + 1, Fmtp(p.payload, [Param(name, value)]))))
  }

  lemma SetRewrites(lines: seq<string>, codec: string, name: string, value: string)
    requires IsLines(lines) && Plain(name) && Plain(value) && Locate(lines, codec).At?
    ensures SetDone(lines, codec, Locate(lines, codec), name, value, SetLines(lines, codec, name, value))
  {
    LocatedIsWritable(lines, codec);
    var f := Locate(lines, codec).fmtp;
    PutWritable(f.params, name, value);
    LocateRewritten(lines, codec, Put(f.params, name, value));
  }

  lemma InsertedIsOneMore(lines: seq<string>, i: nat, line: string)
    requires i <= |lines|
    ensures OneLineMore(lines, Insert(lines, i, line), i)
  {
    assert Insert(lines, i, line)[i] == line;
  }

  lemma SetInserts(lines: seq<string>, codec: string, name: string, value: string, r: nat, payload: string)
    requires IsLines(lines) && Plain(name) && Plain(value) && Locate(lines, codec) == Behind(r, payload)
    ensures SetDone(lines, codec, Behind(r, payload), name, value, SetLines(lines, codec, name, value))
  {
    PutWritable([], name, value);
    var params := [Param(name, value)];
    assert Put([], name, value) == params;
    LocateInserted(lines, codec, r, payload, params);
    InsertedIsOneMore(lines, r + 1, Line(payload, params));
    SetBehindIs(lines, codec, name, value, r, payload);
    BehindIsDone(lines, codec, name, value, r, payload, Insert(lines, r + 1, Line(payload, params)));
  }

  lemma SetBehindIs(lines: seq<string>, codec: string, name: string, value: string, r: nat, payload: string)
    requires Locate(lines, codec) == Behind(r, payload)
    ensures SetLines(lines, codec, name, value) == Ok(Insert(lines, r + 1, Line(payload, [Param(name, value)])))
  {
  }

  lemma BehindIsDone(lines: seq<string>, codec: string, name: string, value: string, r: nat, payload: string,
                     lines': seq<string>)
    requires IsLines(lines') && OneLineMore(lines, lines', r + 1)
    requires Locate(lines', codec) ==
             (if r == 0 then Behind(0, payload) else At(r + 1, Fmtp(payload, [Param(name, value)])))
    ensures SetDone(lines, codec, Behind(r, payload), name, value, Ok(lines'))
  {
  }

  /**
   Setting a parameter changes one fmtp line, or adds one behind the rtpmap line; read back, that line has the old
   parameters with this one changed, or this one alone. It raises an exception only where no payload type is declared.
   */
  lemma SetTakesEffect(lines: seq<string>, codec: string, name: string, value: string)
    requires IsLines(lines) && Plain(name) && Plain(value)
    ensures SetDone(lines, codec, Locate(lines, codec), name, value, SetLines(lines, codec, name, value))
  {
    var p := Locate(lines, codec);
    if p.At? {
      SetRewrites(lines, codec, name, value);
    } else if p.Behind? {
      SetInserts(lines, codec, name, value, p.rtpmap, p.payload);
    } else {
      LocatedIsWritable(lines, codec);
    }
  }

  /** Removing a parameter takes it off its line and nothing else; the line goes with its last parameter. */
  lemma RemoveTakesEffect(lines: seq<string>, codec: string, name: string)
    requires IsLines(lines)
    ensures RemoveLines(lines, codec, name).Ok?
    ensures !Locate(lines, codec).At? ==> RemoveLines(lines, codec, name).value == lines
    ensures var p := Locate(lines, codec);
            p.At? ==>
              var lines', rest := RemoveLines(lines, codec, name).value, Delete(p.fmtp.params, name);
              if rest == [] then lines' == Remove(lines, p.line)
              else OnlyLine(lines, lines', p.line) && Locate(lines', codec) == At(p.line, Fmtp(p.fmtp.pt, rest))
  {
    LocatedIsWritable(lines, codec);
    var p := Locate(lines, codec);
    if p.At? {
      DeleteWritable(p.fmtp.params, name);
      if Delete(p.fmtp.params, name) != [] { LocateRewritten(lines, codec, Delete(p.fmtp.params, name)); }
    }
  }

  // ---------------------------------------------------------------- whose line it is

  /** An fmtp line for exactly this payload type, and one for a longer type that begins with the same digits. */
  predicate OwnLine(line: string, payload: string) {
    FmtpAt(line, 0) == Some(payload)
  }

  predicate Longer(line: string, payload: string) {
    FmtpAt(line, 0).Some? && payload < FmtpAt(line, 0).value
  }

  lemma PrefixForward(line: string, payload: string)
    requires Digits(payload) && FMTP + payload <= line
    ensures OwnLine(line, payload) || Longer(line, payload)
    ensures Parse(line).Some? && FmtpAt(line, 0) == Some(Parse(line).value.pt)
  {
    FoundLineParses(line, payload);
    assert line[..|FMTP|] == FMTP && OccursAt(line, FMTP, 0);
    var head := FMTP + payload;
    assert line[|FMTP|] == head[|FMTP|] == payload[0];
    var pt := FmtpAt(line, 0).value;
    assert payload == pt[..|payload|];
    if |pt| == |payload| { assert pt == payload; }
  }

  lemma PrefixBackward(line: string, payload: string)
    requires FmtpAt(line, 0).Some? && payload <= FmtpAt(line, 0).value
    ensures FMTP + payload <= line
  {
    var pt := FmtpAt(line, 0).value;
    assert line[0..|FMTP|] == FMTP && line[|FMTP|..|FMTP| + |pt|] == pt;
    assert line[..|FMTP| + |payload|] == FMTP + payload;
  }

  /** The search by prefix cannot tell the two apart. */
  lemma PrefixMeans(line: string, payload: string)
    requires Digits(payload)
    ensures FMTP + payload <= line <==> OwnLine(line, payload) || Longer(line, payload)
  {
    if FMTP + payload <= line { PrefixForward(line, payload); }
    if OwnLine(line, payload) || Longer(line, payload) { PrefixBackward(line, payload); }
  }

  /** There is a line for the type, and none before it for a longer type that begins with the same digits. */
  predicate OwnLineFirst(lines: seq<string>, payload: string) {
    exists own :: 0 <= own < |lines| && OwnAt(lines, payload, own)
  }

  predicate OwnAt(lines: seq<string>, payload: string, own: nat)
    requires own < |lines|
  {
    OwnLine(lines[own], payload) && forall j | 0 <= j < own :: !Longer(lines[j], payload)
  }

  lemma FirstFoundIsOwnIff(lines: seq<string>, payload: string, k: nat)
    requires Digits(payload) && FindLine(lines, FMTP + payload, "") == Some(k)
    ensures OwnLine(lines[k], payload) <==> OwnLineFirst(lines, payload)
  {
    PrefixMeans(lines[k], payload);
    if OwnLine(lines[k], payload) {
      forall j | 0 <= j < k ensures !Longer(lines[j], payload) { PrefixMeans(lines[j], payload); }
      assert OwnAt(lines, payload, k);
    }
    if OwnLineFirst(lines, payload) {
      var own :| 0 <= own < |lines| && OwnAt(lines, payload, own);
      PrefixMeans(lines[own], payload);
      assert Matches(lines[own], FMTP + payload, "");
    }
  }

  /**
   Parameters are read from and written to the codec's own line if and only if there is such a line with no line
   before it for a longer payload type that begins with the same digits.
   */
  lemma TouchesItsOwnLineIff(lines: seq<string>, codec: string)
    requires Locate(lines, codec).At?
    ensures CodecPayloadType(lines, codec).Some?
    ensures Locate(lines, codec).fmtp.pt == CodecPayloadType(lines, codec).value <==>
            OwnLineFirst(lines, CodecPayloadType(lines, codec).value)
  {
    var payload := CodecPayloadType(lines, codec).value;
    var k := FindFmtpLine(lines, codec).value;
    FirstFoundIsOwnIff(lines, payload, k);
    PrefixForward(lines[k], payload);
  }

  const ASTRAY: seq<string> := ["v=0", LONE, "a=fmtp:96 q=1"]

  lemma NoPrefix(p: string, line: string, i: nat)
    requires i < |p| && i < |line| && p[i] != line[i]
    ensures !(p <= line)
  {
  }

  lemma FindsSecond(a: string, b: string, c: string, prefix: string, substr: string)
    requires !(prefix <= a) && Matches(b, prefix, substr)
    ensures FindLine([a, b, c], prefix, substr) == Some(1)
  {
    FindIs([a, b, c], prefix, substr, 1);
  }

  lemma FindsThird(a: string, b: string, c: string, prefix: string)
    requires !(prefix <= a) && !(prefix <= b) && prefix <= c
    ensures FindLine([a, b, c], prefix, "") == Some(2)
  {
    FindIs([a, b, c], prefix, "", 2);
  }

  lemma AstrayType()
    ensures FindLine(ASTRAY, "a=rtpmap", "x") == Some(1) && CodecPayloadType(ASTRAY, "x") == Some("9")
  {
    LoneLine();
    LonePayload();
    NoPrefix("a=rtpmap", "v=0", 0);
    FindsSecond("v=0", LONE, "a=fmtp:96 q=1", "a=rtpmap", "x");
  }

  const NINE: string := "a=fmtp:9"

  lemma AstrayPrefix()
    ensures NINE == FMTP + "9" && !(NINE <= "v=0") && !(NINE <= LONE)
  {
    NoPrefix(NINE, "v=0", 0);
    NoPrefix(NINE, LONE, 2);
  }

  lemma AstrayFound()
    ensures FindLine(ASTRAY, FMTP + "9", "") == Some(2)
  {
    AstrayLine();
    AstrayPrefix();
    FindsThird("v=0", LONE, "a=fmtp:96 q=1", NINE);
  }

  /** A parameter of payload type 9 goes to the line of type 96 when that comes first. */
  lemma ParametersCanGoAstray()
    ensures CodecPayloadType(ASTRAY, "x") == Some("9")
    ensures Locate(ASTRAY, "x").At? && Locate(ASTRAY, "x").line == 2 && Locate(ASTRAY, "x").fmtp.pt == "96"
  {
    AstrayType();
    AstrayFound();
    AstrayLine();
    assert FindFmtpLine(ASTRAY, "x") == Some(2);
  }

  lemma AstrayLine()
    ensures FMTP + "9" <= "a=fmtp:96 q=1" && Parse("a=fmtp:96 q=1").Some? && Parse("a=fmtp:96 q=1").value.pt == "96"
  {
    var line := "a=fmtp:96 q=1";
    assert line[..8] == FMTP + "9";
    assert line[0..7] == FMTP && OccursAt(line, FMTP, 0);
    assert RunEnd(line, 7, IsDigit) == 9;
    assert line[7..9] == "96" && FmtpAt(line, 0) == Some("96");
  }

  // ---------------------------------------------------------------- the laws

  /** Where a parameter that was set is found: rewritten in its place, or on a line of its own. */
  function PlaceAfter(p: Place, name: string, value: string): Place {
    match p
    case At(k, f) => At(k, Fmtp(f.pt, Put(f.params, name, value)))
    case Behind(r, payload) => At(r + 1, Fmtp(payload, [Param(name, value)]))
    case _ => p
  }

  lemma RemoveAfterSetAt(lines: seq<string>, p: Place, name: string, value: string)
    requires Within(p, lines) && SetAt(lines, p, name, value).Ok?
    ensures var lines' := SetAt(lines, p, name, value).value;
            && Within(PlaceAfter(p, name, value), lines')
            && RemoveAt(lines', PlaceAfter(p, name, value), name) == RemoveAt(lines, p, name)
  {
    var lines' := SetAt(lines, p, name, value).value;
    if p.At? {
      DeletePut(p.fmtp.params, name, value);
      var line := Line(p.fmtp.pt, Delete(p.fmtp.params, name));
      assert Remove(lines', p.line) == Remove(lines, p.line) && lines'[p.line := line] == lines[p.line := line];
    } else if p.Behind? {
      assert Remove(lines', p.rtpmap + 1) == lines;
    }
  }

  lemma SetTwiceAt(lines: seq<string>, p: Place, name: string, v: string, w: string)
    requires Within(p, lines) && SetAt(lines, p, name, v).Ok?
    ensures var lines' := SetAt(lines, p, name, v).value;
            && Within(PlaceAfter(p, name, v), lines')
            && SetAt(lines', PlaceAfter(p, name, v), name, w) == SetAt(lines, p, name, w)
  {
    if p.At? {
      PutPut(p.fmtp.params, name, v, w);
      var line := Line(p.fmtp.pt, Put(p.fmtp.params, name, w));
      assert SetAt(lines, p, name, v).value[p.line := line] == lines[p.line := line];
    } else if p.Behind? {
      assert Put([Param(name, v)], name, w) == [Param(name, w)];
      var x, y := Line(p.payload, [Param(name, v)]), Line(p.payload, [Param(name, w)]);
      assert Insert(lines, p.rtpmap + 1, x)[p.rtpmap + 1 := y] == Insert(lines, p.rtpmap + 1, y);
    }
  }

  lemma SetIsFoundAgain(lines: seq<string>, codec: string, name: string, value: string)
    requires IsLines(lines) && Plain(name) && Plain(value) && !DeclaredFirst(lines, codec)
    requires SetLines(lines, codec, name, value).Ok?
    ensures Locate(SetLines(lines, codec, name, value).value, codec) == PlaceAfter(Locate(lines, codec), name, value)
  {
    LocateFirst(lines, codec);
    SetTakesEffect(lines, codec, name, value);
  }

  /** Setting twice, or removing what was set, on a codec declared on the first line only piles up lines. */
  lemma DeclaredFirstPilesUp(lines: seq<string>, codec: string, name: string, v: string, w: string)
    requires IsLines(lines) && Plain(name) && Plain(v) && Plain(w) && DeclaredFirst(lines, codec)
    requires SetLines(lines, codec, name, v).Ok?
    ensures var lines' := SetLines(lines, codec, name, v).value;
            && IsLines(lines') && |lines'| == |lines| + 1
            && RemoveLines(lines', codec, name) == Ok(lines') && RemoveLines(lines, codec, name) == Ok(lines)
            && SetLines(lines', codec, name, w).Ok? && IsLines(SetLines(lines', codec, name, w).value)
            && |SetLines(lines', codec, name, w).value| == |lines| + 2
            && SetLines(lines, codec, name, w).Ok? && IsLines(SetLines(lines, codec, name, w).value)
            && |SetLines(lines, codec, name, w).value| == |lines| + 1
  {
    LocateFirst(lines, codec);
    SetTakesEffect(lines, codec, name, v);
    SetTakesEffect(lines, codec, name, w);
    SetTakesEffect(SetLines(lines, codec, name, v).value, codec, name, w);
  }

  lemma JoinedLines(lines: seq<string>)
    requires IsLines(lines)
    ensures Split(Join(lines, CRLF), CRLF) == lines
  {
    SplitJoin(lines, CRLF);
  }

  lemma SetIsLines(sdp: string, codec: string, name: string, value: string)
    requires Plain(name) && Plain(value) && SetCodecParam(sdp, codec, name, value).Ok?
    ensures SetLines(Split(sdp, CRLF), codec, name, value).Ok?
    ensures Split(SetCodecParam(sdp, codec, name, value).value, CRLF) ==
            SetLines(Split(sdp, CRLF), codec, name, value).value
  {
    SetTakesEffect(Split(sdp, CRLF), codec, name, value);
    JoinedLines(SetLines(Split(sdp, CRLF), codec, name, value).value);
  }

  /**
   For separator-free names and values: removing a parameter after setting it is removing it from the original
   description, if and only if the codec is not declared on the very first line.
   */
  lemma RemoveAfterSetIff(sdp: string, codec: string, name: string, value: string)
    requires Plain(name) && Plain(value) && SetCodecParam(sdp, codec, name, value).Ok?
    ensures RemoveCodecParam(SetCodecParam(sdp, codec, name, value).value, codec, name) ==
            RemoveCodecParam(sdp, codec, name)
            <==> !DeclaredFirst(Split(sdp, CRLF), codec)
  {
    var lines := Split(sdp, CRLF);
    SetIsLines(sdp, codec, name, value);
    if DeclaredFirst(lines, codec) {
      DeclaredFirstPilesUp(lines, codec, name, value, value);
      JoinedLines(lines);
      JoinedLines(SetLines(lines, codec, name, value).value);
    } else {
      SetIsFoundAgain(lines, codec, name, value);
      RemoveAfterSetAt(lines, Locate(lines, codec), name, value);
    }
  }

  /** And likewise for setting twice, which is the last set. */
  lemma SetTwiceIff(sdp: string, codec: string, name: string, v: string, w: string)
    requires Plain(name) && Plain(v) && Plain(w) && SetCodecParam(sdp, codec, name, v).Ok?
    ensures SetCodecParam(SetCodecParam(sdp, codec, name, v).value, codec, name, w) ==
            SetCodecParam(sdp, codec, name, w)
            <==> !DeclaredFirst(Split(sdp, CRLF), codec)
  {
    var lines := Split(sdp, CRLF);
    SetIsLines(sdp, codec, name, v);
    if DeclaredFirst(lines, codec) {
      DeclaredFirstPilesUp(lines, codec, name, v, w);
      JoinedLines(SetLines(lines, codec, name, w).value);
      JoinedLines(SetLines(SetLines(lines, codec, name, v).value, codec, name, w).value);
    } else {
      SetIsFoundAgain(lines, codec, name, v);
      SetTwiceAt(lines, Locate(lines, codec), name, v, w);
    }
  }

  const LONE: string := "a=rtpmap:9 x/1"

  lemma LoneLine()
    ensures Split(LONE, CRLF) == [LONE] && Matches(LONE, "a=rtpmap", "x")
  {
    ContainsChar(Lower(LONE), 'x');
    assert Lower(LONE)[11] == 'x' && Lower("x") == "x";
    assert LONE[..8] == "a=rtpmap";
    forall k: nat
      ensures !OccursAt(LONE, CRLF, k)
    {
      if k + 2 <= |LONE| { assert LONE[k..k + 2][0] == LONE[k] != '\r'; }
    }
  }

  lemma LonePayload()
    ensures PayloadTypeFromLine(LONE) == Some("9")
  {
    assert LONE[0..9] == "a=rtpmap:" && OccursAt(LONE, "a=rtpmap:", 0);
    assert RunEnd(LONE, 9, IsDigit) == 10 && RunEnd(LONE, 11, IsNameChar) == 12;
    assert LONE[9..10] == "9";
  }

  lemma LoneParam()
    ensures Plain("p") && Plain("1")
  {
    ContainsChar("p", ';');
    ContainsChar("p", '=');
    ContainsChar("1", ';');
    ContainsChar("1", '=');
  }

  /** A description whose first line declares the codec: the parameter that was set cannot be removed. */
  lemma FirstLineBreaksTheLaws()
    ensures SetCodecParam(LONE, "x", "p", "1").Ok?
    ensures RemoveCodecParam(SetCodecParam(LONE, "x", "p", "1").value, "x", "p") != RemoveCodecParam(LONE, "x", "p")
  {
    LoneLine();
    LonePayload();
    LoneParam();
    FindIs([LONE], "a=rtpmap", "x", 0);
    RemoveAfterSetIff(LONE, "x", "p", "1");
  }

  // ---------------------------------------------------------------- the methods

  /** `parseFmtpLine`. */
  method ParseFmtpLine(fmtpLine: string) returns (r: Option<Fmtp>)
    ensures r == Parse(fmtpLine)
  {
    var keyValues := Split(AfterSpace(fmtpLine), ";");
    var pt := FmtpFrom(fmtpLine, 0);
    if pt.None? { return None; }
    var params: Params := [];
    for i := 0 to |keyValues|
      invariant params == ParsePieces(keyValues[..i])
    {
      assert keyValues[..i + 1][..i] == keyValues[..i];
      var pair := Split(keyValues[i], "=");
      if |pair| == 2 { params := Put(params, pair[0], pair[1]); }
    }
    assert keyValues[..|keyValues|] == keyValues;
    return Some(Fmtp(pt.value, params));
  }

  /** `writeFmtpLine`. */
  method WriteFmtpLine(f: Fmtp) returns (r: Option<string>)
    ensures r == Write(f)
  {
    var keyValues: seq<string> := [];
    for i := 0 to |f.params|
      invariant keyValues == Pieces(f.params[..i])
    {
      keyValues := keyValues + [f.params[i].name + "=" + f.params[i].value];
      assert f.params[..i + 1] == f.params[..i] + [f.params[i]];
    }
    assert f.params[..|f.params|] == f.params;
    if |keyValues| == 0 { return None; }
    return Some(FMTP + f.pt + " " + Join(keyValues, ";"));
  }

  /** `setCodecParam`. */
  method SetParam(sdp: string, codec: string, name: string, value: string) returns (r: Result<string, Fault>)
    ensures r == SetCodecParam(sdp, codec, name, value)
  {
    var sdpLines := Split(sdp, CRLF);
    var fmtpLineIndex := FindFmtpLine(sdpLines, codec);
    if fmtpLineIndex.None? {
      var index := FindLine(sdpLines, "a=rtpmap", codec);
      if index.None? {
        JoinSplit(sdp, CRLF);
        return Ok(sdp);
      }
      var payload := PayloadTypeFromLine(sdpLines[index.value]);
      if payload.None? { return Err(TypeError); }
      var line := WriteFmtpLine(Fmtp(payload.value, [Param(name, value)]));
      sdpLines := Insert(sdpLines, index.value + 1, line.value);
    } else {
      var f := ParseFmtpLine(sdpLines[fmtpLineIndex.value]);
      if f.None? { return Err(TypeError); }
      var params := Put(f.value.params, name, value);
      PutMembers(f.value.params, name, value);
      var line := WriteFmtpLine(Fmtp(f.value.pt, params));
      sdpLines := sdpLines[fmtpLineIndex.value := line.value];
    }
    return Ok(Join(sdpLines, CRLF));
  }

  /** `removeCodecParam`. */
  method RemoveParam(sdp: string, codec: string, name: string) returns (r: Result<string, Fault>)
    ensures r == RemoveCodecParam(sdp, codec, name)
  {
    var sdpLines := Split(sdp, CRLF);
    var fmtpLineIndex := FindFmtpLine(sdpLines, codec);
    if fmtpLineIndex.None? {
      JoinSplit(sdp, CRLF);
      return Ok(sdp);
    }
    var f := ParseFmtpLine(sdpLines[fmtpLineIndex.value]);
    if f.None? { return Err(TypeError); }
    var newLine := WriteFmtpLine(Fmtp(f.value.pt, Delete(f.value.params, name)));
    if newLine.None? {
      sdpLines := Remove(sdpLines, fmtpLineIndex.value);
    } else {
      sdpLines := sdpLines[fmtpLineIndex.value := newLine.value];
    }
    return Ok(Join(sdpLines, CRLF));
  }
}
