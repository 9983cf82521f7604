/**
 * The streaming reader of an HTTP response body: bounded by Content-Length, chunked, or running to
 * the end of the connection (sections 6.3 and 7.1 of RFC 9112). The transport hands over what it
 * has in pieces of any size and then ends.
 */
module BodyReader {
  import opened Basics

  type Byte = x: nat | x < 256

  const CR: Byte := 13
  const LF: Byte := 10
  const CRLF: seq<Byte> := [13, 10]
  const SEMICOLON: Byte := 59
  const PLUS: Byte := 43
  const U64_LIMIT: nat := 0x1_0000_0000_0000_0000

  // ---- lines and sizes -------------------------------------------------------------

  datatype Line = Cut | Line(text: seq<Byte>, rest: seq<Byte>)

  /** Everything before the first CRLF, and everything after it. */
  function TakeLine(p: seq<Byte>): Line {
    if |p| < 2 then Cut
    else if p[0] == CR && p[1] == LF then Line([], p[2..])
    else match TakeLine(p[1..])
         case Cut => Cut
         case Line(text, rest) => Line([p[0]] + text, rest)
  }

  function HexValue(b: Byte): Option<nat> {
    if 48 <= b <= 57 then Some(b - 48)
    else if 97 <= b <= 102 then Some(b - 87)
    else if 65 <= b <= 70 then Some(b - 55)
    else None
  }

  /** Hexadecimal digits continuing a number; a number of 64 bits or more is refused. */
  function HexDigits(s: seq<Byte>, sofar: nat): Option<nat> {
    if s == [] then Some(sofar) else
    match HexValue(s[0])
    case None => None
    case Some(d) => if sofar * 16 + d < U64_LIMIT then HexDigits(s[1..], sofar * 16 + d) else None
  }

  /** An optional plus sign and at least one digit. */
  function ParseHex(s: seq<Byte>): Option<nat> {
    var digits := if s != [] && s[0] == PLUS then s[1..] else s;
    if digits == [] then None else HexDigits(digits, 0)
  }

  function BeforeSemicolon(s: seq<Byte>): seq<Byte> {
    if s == [] || s[0] == SEMICOLON then [] else [s[0]] + BeforeSemicolon(s[1..])
  }

  function ChunkSize(line: seq<Byte>): Option<nat> { ParseHex(BeforeSemicolon(line)) }

  // ---- what a reader's state stands for --------------------------------------------------

  /** The body still to come from a chunked reader, or None if reading it on ends in an error. */
  function Chunks(left: nat, p: seq<Byte>): Option<seq<Byte>>
    decreases |p|, if left == 0 then 1 else 0
  {
    if left == 0 then
      match TakeLine(p)
      case Cut => None
      case Line(text, rest) =>
        TakeLineShrinks(p);
        (match ChunkSize(text)
         case None => None
         case Some(size) => if size == 0 then Some([]) else Chunks(size, rest))
    else if |p| < left + 2 then None
    else
      match Chunks(0, p[left + 2..])
      case None => None
      case Some(body) => Some(p[..left] + body)
  }

  lemma {:induction false} TakeLineShrinks(p: seq<Byte>)
    ensures TakeLine(p).Line? ==> |TakeLine(p).text| + 2 + |TakeLine(p).rest| == |p|
    decreases |p|
  {
    if |p| >= 2 && !(p[0] == CR && p[1] == LF) { TakeLineShrinks(p[1..]); }
  }

  datatype State = State(remaining: Option<nat>, chunked: bool, chunkLeft: nat, chunkDone: bool, pending: seq<Byte>)

  function Decode(s: State): Option<seq<Byte>> {
    if s.chunked then (if s.chunkDone then Some([]) else Chunks(s.chunkLeft, s.pending))
    else match s.remaining
         case None => Some(s.pending)
         case Some(n) => if |s.pending| < n then None else Some(s.pending[..n])
  }

  // ---- the reader ----------------------------------------------------------------------

  /** A connection: what it will still deliver before it ends. */
  class Transport {
    var data: seq<Byte>

    constructor (data: seq<Byte>)
      ensures this.data == data
    {
      this.data := data;
    }

    /** Some of what is left, at least one byte and at most `max`; nothing once it has ended. */
    method Read(max: nat) returns (r: seq<Byte>)
      requires max > 0
      modifies this
      ensures old(data) == r + data && |r| <= max && (r == [] <==> old(data) == [])
    {
      if data == [] { return []; }
      var n :| 1 <= n <= |data| && n <= max;
      r := data[..n];
      data := data[n..];
    }
  }

  datatype Outcome = Ok(piece: seq<Byte>) | Err

  class Reader {
    var remaining: Option<nat>
    var chunked: bool
    var chunkLeft: nat
    var chunkDone: bool
    var buffered: seq<Byte>
    var pos: nat
    const stream: Transport

    ghost predicate Valid()
      reads this
    {
      pos <= |buffered|
    }

    function Pending(): seq<Byte>
      requires Valid()
      reads this, stream
    {
      buffered[pos..] + stream.data
    }

    function View(): State
      requires Valid()
      reads this, stream
    {
      State(remaining, chunked, chunkLeft, chunkDone, Pending())
    }

    /** The reader of a response whose header ended with `buffered` already read past it. */
    constructor (contentLength: Option<nat>, chunked: bool, buffered: seq<Byte>, stream: Transport)
      ensures Valid() && this.stream == stream
      ensures View() == State(contentLength, chunked, 0, false, buffered + stream.data)
    {
      this.remaining, this.chunked, this.chunkLeft, this.chunkDone := contentLength, chunked, 0, false;
      this.buffered, this.pos, this.stream := buffered, 0, stream;
      new;
      assert buffered[0..] == buffered;
    }

    method RawRead(max: nat) returns (r: seq<Byte>)
      requires Valid() && max > 0
      modifies this`pos, stream
      ensures Valid() && old(Pending()) == r + Pending() && |r| <= max && (r == [] <==> old(Pending()) == [])
    {
      if pos < |buffered| {
        var n := if |buffered| - pos < max then |buffered| - pos else max;
        r := buffered[pos..pos + n];
        assert buffered[pos..] == r + buffered[pos + n..];
        pos := pos + n;
        return;
      }
      r := stream.Read(max);
    }

    /** All `n` bytes, or None when the connection ends first. */
    method RawReadExact(n: nat) returns (r: Option<seq<Byte>>)
      requires Valid()
      modifies this`pos, stream
      ensures Valid()
      ensures |old(Pending())| >= n ==> r == Some(old(Pending())[..n]) && Pending() == old(Pending())[n..]
      ensures |old(Pending())| < n ==> r == None
    {
      var got: seq<Byte> := [];
      ghost var all, ahead := Pending(), Pending();
      while |got| < n
        invariant Valid() && |got| <= n && Pending() == ahead && all == got + ahead
        decreases n - |got|
      {
        var more := RawRead(n - |got|);
        if more == [] { return None; }
        ahead := ahead[|more|..];
        assert all == (got + more) + ahead;
        got := got + more;
      }
      r := Some(got);
    }

    /** The next line without its CRLF, read byte by byte. */
    method RawReadLine() returns (r: Option<seq<Byte>>)
      requires Valid()
      modifies this`pos, stream
      ensures Valid()
      ensures TakeLine(old(Pending())) == Cut ==> r == None
      ensures TakeLine(old(Pending())).Line? ==>
                r == Some(TakeLine(old(Pending())).text) && Pending() == TakeLine(old(Pending())).rest
    {
      var line: seq<Byte> := [];
      ghost var found := Scan(line, Pending());
      ScanIsTakeLine(line, Pending());
      assert line + Pending() == Pending();
      while true
        invariant Valid() && Scan(line, Pending()) == found
        decreases |Pending()|
      {
        ghost var ahead := Pending();
        var b := ReadByte();
        if b.None? { return None; }
        assert ahead[0] == b.value && ahead[1..] == Pending();
        if line != [] && line[|line| - 1] == CR && b.value == LF { return Some(line[..|line| - 1]); }
        line := line + [b.value];
      }
    }

    method ReadByte() returns (b: Option<Byte>)
      requires Valid()
      modifies this`pos, stream
      ensures Valid() && (b.None? <==> old(Pending()) == [])
      ensures b.Some? ==> old(Pending()) == [b.value] + Pending()
    {
      var r := RawReadExact(1);
      b := if r.None? then None else Some(r.value[0]);
    }

    /** Part of the chunk in progress; its last byte brings the two bytes after it along. */
    method ReadChunk(max: nat) returns (o: Outcome)
      requires Valid() && chunked && !chunkDone && chunkLeft > 0 && max > 0
      modifies this`pos, this`chunkLeft, stream
      ensures Valid() && Progress(old(View()), View(), o, max)
    {
      ghost var p, k := Pending(), chunkLeft;
      var want := if chunkLeft < max then chunkLeft else max;
      var piece := RawRead(want);
      if piece == [] { return Err; }
      ghost var p' := Pending();
      chunkLeft := chunkLeft - |piece|;
      if chunkLeft == 0 {
        var crlf := RawReadExact(2);
        ChunkEnds(p, k, piece, p');
        if crlf.None? { return Err; }
      } else {
        ChunkGoesOn(p, k, piece, p');
      }
      o := Ok(piece);
    }

    method Read(max: nat) returns (o: Outcome)
      requires Valid()
      modifies this`pos, this`chunkLeft, this`chunkDone, this`remaining, stream
      ensures Valid() && chunked == old(chunked)
      ensures max == 0 ==> o == Ok([]) && View() == old(View())
      ensures max > 0 ==> Progress(old(View()), View(), o, max)
    {
      if max == 0 { return Ok([]); }
      if chunked {
        if chunkDone { return Ok([]); }
        if chunkLeft == 0 {
          ghost var p := Pending();
          var line := RawReadLine();
          if line.None? { return Err; }
          TakeLineShrinks(p);
          var size := ChunkSize(line.value);
          if size.None? { return Err; }
          if size.value == 0 {
            var _ := RawReadLine();
            chunkDone := true;
            return Ok([]);
          }
          chunkLeft := size.value;
        }
        o := ReadChunk(max);
      } else {
        o := ReadPlain(max);
      }
    }

    method ReadPlain(max: nat) returns (o: Outcome)
      requires Valid() && !chunked && max > 0
      modifies this`pos, this`remaining, stream
      ensures Valid() && Progress(old(View()), View(), o, max)
    {
      match remaining
      case Some(rem) =>
        if rem == 0 { return Ok([]); }
        ghost var p := Pending();
        var piece := RawRead(if rem < max then rem else max);
        if piece == [] { return Err; }
        remaining := Some(rem - |piece|);
        PlainGoesOn(p, rem, piece, Pending());
        o := Ok(piece);
      case None =>
        var piece := RawRead(max);
        o := Ok(piece);
    }

    /** Read until a clean end or an error, with buffers of any non-zero sizes. */
    method ReadToEnd() returns (body: Option<seq<Byte>>)
      requires Valid()
      modifies this`pos, this`chunkLeft, this`chunkDone, this`remaining, stream
      ensures Valid() && body == old(Decode(View()))
    {
      var got: seq<Byte> := [];
      ghost var all := Decode(View());
      while true
        invariant Valid()
        invariant all.Some? <==> Decode(View()).Some?
        invariant all.Some? ==> all.value == got + Decode(View()).value
        decreases |Pending()|
      {
        ghost var ahead := Decode(View());
        var max :| 0 < max;
        var o := Read(max);
        if o.Err? { return None; }
        if o.piece == [] {
          assert got + ahead.value == got;
          return Some(got);
        }
        assert Decode(View()).Some? ==>
          got + (o.piece + Decode(View()).value) == (got + o.piece) + Decode(View()).value;
        got := got + o.piece;
      }
    }
  }

  /**
   * The body of a response: for every split of its bytes between what the header read brought
   * along and what the connection delivers, in whatever pieces, the result is the same.
   */
  method Receive(contentLength: Option<nat>, chunked: bool, readAhead: seq<Byte>, rest: seq<Byte>)
    returns (body: Option<seq<Byte>>)
    ensures body == Decode(State(contentLength, chunked, 0, false, readAhead + rest))
    ensures !chunked && contentLength.Some? ==>
              body == if |readAhead + rest| < contentLength.value then None else Some((readAhead + rest)[..contentLength.value])
  {
    var stream := new Transport(rest);
    var reader := new Reader(contentLength, chunked, readAhead, stream);
    body := reader.ReadToEnd();
  }

  /** What one call with a non-empty buffer does, whatever the transport chose to deliver. */
  ghost predicate Progress(s: State, s': State, o: Outcome, max: nat) {
    && (o.Ok? && o.piece != [] ==> |o.piece| <= max && |s'.pending| < |s.pending|)
    && match Decode(s)
       case Some(body) =>
         o.Ok? && Decode(s').Some? && body == o.piece + Decode(s').value && (o.piece == [] <==> body == [])
       case None => o.Err? || (o.piece != [] && Decode(s').None?)
  }

  lemma {:induction false} ChunkGoesOn(p: seq<Byte>, k: nat, piece: seq<Byte>, p': seq<Byte>)
    requires p == piece + p' && 0 < |piece| < k
    ensures Chunks(k, p) == match Chunks(k - |piece|, p') case None => None case Some(body) => Some(piece + body)
  {
    if |p| >= k + 2 {
      assert p[k + 2..] == p'[k - |piece| + 2..];
      assert p[..k] == piece + p'[..k - |piece|];
      if Chunks(0, p[k + 2..]).Some? {
        assert p[..k] + Chunks(0, p[k + 2..]).value == piece + (p'[..k - |piece|] + Chunks(0, p[k + 2..]).value);
      }
    }
  }

  lemma {:induction false} ChunkEnds(p: seq<Byte>, k: nat, piece: seq<Byte>, p': seq<Byte>)
    requires p == piece + p' && 0 < |piece| == k
    ensures |p'| < 2 ==> Chunks(k, p) == None
    ensures |p'| >= 2 ==> Chunks(k, p) == match Chunks(0, p'[2..]) case None => None case Some(body) => Some(piece + body)
  {
    if |p'| >= 2 {
      assert p[k + 2..] == p'[2..] && p[..k] == piece;
    }
  }

  lemma {:induction false} PlainGoesOn(p: seq<Byte>, n: nat, piece: seq<Byte>, p': seq<Byte>)
    requires p == piece + p' && |piece| <= n
    ensures |p| < n <==> |p'| < n - |piece|
    ensures |p| >= n ==> p[..n] == piece + p'[..n - |piece|]
  {
  }

  // ---- about lines ------------------------------------------------------------------------

  predicate NoCrlf(s: seq<Byte>) { forall i :: 0 <= i < |s| - 1 ==> !(s[i] == CR && s[i + 1] == LF) }

  lemma {:induction false} LineFound(text: seq<Byte>, rest: seq<Byte>)
    requires NoCrlf(text + [CR])
    ensures TakeLine(text + CRLF + rest) == Line(text, rest)
  {
    var p := text + CRLF + rest;
    if text == [] {
      assert p[2..] == rest;
    } else {
      assert p[1..] == text[1..] + CRLF + rest;
      assert (text + [CR])[1..] == text[1..] + [CR];
      LineFound(text[1..], rest);
      assert p[0] == (text + [CR])[0] && p[1] == (text + [CR])[1];
      assert [text[0]] + text[1..] == text;
    }
  }

  lemma {:induction false} LineEnds(line: seq<Byte>, rest: seq<Byte>)
    requires line != [] && line[|line| - 1] == CR && NoCrlf(line)
    ensures TakeLine(line + [LF] + rest) == Line(line[..|line| - 1], rest)
  {
    var text := line[..|line| - 1];
    assert line == text + [CR] && line + [LF] + rest == text + CRLF + rest;
    LineFound(text, rest);
  }

  lemma {:induction false} NoCrlfExtends(line: seq<Byte>, b: Byte)
    requires NoCrlf(line) && !(line != [] && line[|line| - 1] == CR && b == LF)
    ensures NoCrlf(line + [b])
  {
  }

  lemma {:induction false} CutLine(p: seq<Byte>)
    requires NoCrlf(p)
    ensures TakeLine(p) == Cut
  {
    if |p| >= 2 { CutLine(p[1..]); }
  }

  /** Reading on byte by byte with `line` already read. */
  function Scan(line: seq<Byte>, p: seq<Byte>): Line
    decreases |p|
  {
    if p == [] then Cut
    else if line != [] && line[|line| - 1] == CR && p[0] == LF then Line(line[..|line| - 1], p[1..])
    else Scan(line + [p[0]], p[1..])
  }

  lemma {:induction false} ScanIsTakeLine(line: seq<Byte>, p: seq<Byte>)
    requires NoCrlf(line)
    ensures Scan(line, p) == TakeLine(line + p)
    decreases |p|
  {
    if p == [] {
      assert line + p == line;
      CutLine(line);
    } else {
      assert line + p == line + [p[0]] + p[1..];
      if line != [] && line[|line| - 1] == CR && p[0] == LF {
        LineEnds(line, p[1..]);
      } else {
        NoCrlfExtends(line, p[0]);
        ScanIsTakeLine(line + [p[0]], p[1..]);
      }
    }
  }

  // ---- messages as the grammar builds them ----------------------------------------------------

  /** A chunk: how its size is written, white space after it, an extension, and its data. */
  datatype Chunk = Chunk(size: seq<Byte>, blank: seq<Byte>, ext: seq<Byte>, data: seq<Byte>)

  predicate NoSemicolon(s: seq<Byte>) { forall i :: 0 <= i < |s| ==> s[i] != SEMICOLON }

  /** Spaces and tabs. */
  predicate Blank(s: seq<Byte>) { forall i :: 0 <= i < |s| ==> s[i] == 32 || s[i] == 9 }

  /**
   * A size line as section 7.1.1 of RFC 9112 has it: a hexadecimal size of this value, then nothing or
   * an extension, which white space may precede, and no CRLF in it.
   */
  predicate SizeLine(c: Chunk, size: nat) {
    && ParseHex(c.size) == Some(size) && NoSemicolon(c.size) && Blank(c.blank)
    && (if c.ext == [] then c.blank == [] else c.ext[0] == SEMICOLON) && NoCrlf(SizeText(c) + [CR])
  }

  predicate WellFormed(c: Chunk) { c.data != [] && SizeLine(c, |c.data|) }

  predicate AllWellFormed(cs: seq<Chunk>) { forall i :: 0 <= i < |cs| ==> WellFormed(cs[i]) }

  predicate Last(c: Chunk) { c.data == [] && SizeLine(c, 0) }

  /** No white space between the size and the extension. */
  predicate Tight(c: Chunk) { c.blank == [] }

  predicate AllTight(cs: seq<Chunk>) { forall i :: 0 <= i < |cs| ==> Tight(cs[i]) }

  function SizeText(c: Chunk): seq<Byte> { c.size + c.blank + c.ext }

  function SizeLineOf(c: Chunk): seq<Byte> { SizeText(c) + CRLF }

  function WireOf(c: Chunk): seq<Byte> { SizeLineOf(c) + c.data + CRLF }

  function Wire(cs: seq<Chunk>, last: Chunk): seq<Byte> {
    if cs == [] then SizeLineOf(last) else WireOf(cs[0]) + Wire(cs[1..], last)
  }

  function Payload(cs: seq<Chunk>): seq<Byte> {
    if cs == [] then [] else cs[0].data + Payload(cs[1..])
  }

  lemma {:induction false} SizeOfLine(size: seq<Byte>, ext: seq<Byte>)
    requires NoSemicolon(size) && (ext == [] || ext[0] == SEMICOLON)
    ensures BeforeSemicolon(size + ext) == size
  {
    if size == [] {
      assert size + ext == ext;
    } else {
      assert (size + ext)[1..] == size[1..] + ext;
      SizeOfLine(size[1..], ext);
    }
  }

  /** White space is no part of a number. */
  lemma {:induction false} BlankIsRefused(size: seq<Byte>, blank: seq<Byte>)
    requires ParseHex(size).Some? && Blank(blank) && blank != []
    ensures ParseHex(size + blank) == None
  {
    var digits := if size[0] == PLUS then size[1..] else size;
    assert (size + blank)[0] == size[0] && (size + blank)[1..] == size[1..] + blank;
    DigitsAppend(digits, blank, 0);
    assert HexValue(blank[0]) == None;
  }

  lemma {:induction false} LineOfChunk(c: Chunk, size: nat, rest: seq<Byte>)
    requires SizeLine(c, size)
    ensures TakeLine(SizeLineOf(c) + rest) == Line(SizeText(c), rest)
    ensures ChunkSize(SizeText(c)) == if Tight(c) then Some(size) else None
  {
    LineFound(SizeText(c), rest);
    SizeOfLine(c.size + c.blank, c.ext);
    if Tight(c) { assert c.size + c.blank == c.size; } else { BlankIsRefused(c.size, c.blank); }
  }

  lemma {:induction false} OneChunk(c: Chunk, rest: seq<Byte>)
    requires WellFormed(c)
    ensures Chunks(0, WireOf(c) + rest)
            == if !Tight(c) then None else match Chunks(0, rest) case None => None case Some(body) => Some(c.data + body)
  {
    var k, p := |c.data|, c.data + CRLF + rest;
    assert WireOf(c) + rest == SizeLineOf(c) + p;
    LineOfChunk(c, k, p);
    assert p[..k] == c.data && p[k + 2..] == rest;
  }

  /**
   * Every well-formed chunked message, whatever trailer follows its last chunk, decodes to its payload
   * if no size is followed by white space, and is refused if one is.
   */
  lemma {:induction false} WellFormedDecodes(cs: seq<Chunk>, last: Chunk, trailer: seq<Byte>)
    requires AllWellFormed(cs) && Last(last)
    ensures Chunks(0, Wire(cs, last) + trailer) == if AllTight(cs) && Tight(last) then Some(Payload(cs)) else None
    decreases |cs|
  {
    if cs == [] {
      LineOfChunk(last, 0, trailer);
    } else {
      assert Wire(cs, last) + trailer == WireOf(cs[0]) + (Wire(cs[1..], last) + trailer);
      WellFormedDecodes(cs[1..], last, trailer);
      OneChunk(cs[0], Wire(cs[1..], last) + trailer);
      assert AllTight(cs) <==> Tight(cs[0]) && AllTight(cs[1..]);
    }
  }

  /** A size line cut before its end is no line. */
  lemma {:induction false} CutSizeLine(c: Chunk, size: nat, n: nat)
    requires SizeLine(c, size) && n < |SizeLineOf(c)|
    ensures Chunks(0, SizeLineOf(c)[..n]) == None
  {
    assert SizeLineOf(c)[..n] == (SizeText(c) + [CR])[..n];
    CutLine(SizeLineOf(c)[..n]);
  }

  lemma {:induction false} CutChunk(c: Chunk, n: nat)
    requires WellFormed(c) && n < |WireOf(c)|
    ensures Chunks(0, WireOf(c)[..n]) == None
  {
    var h := |SizeLineOf(c)|;
    if n < h {
      assert WireOf(c)[..n] == SizeLineOf(c)[..n];
      CutSizeLine(c, |c.data|, n);
    } else {
      var p := (c.data + CRLF)[..n - h];
      assert WireOf(c)[..n] == SizeLineOf(c) + p;
      LineOfChunk(c, |c.data|, p);
    }
  }

  /** A message cut anywhere before the end of its zero-size line ends in an error. */
  lemma {:induction false} CutMessageIsAnError(cs: seq<Chunk>, last: Chunk, n: nat)
    requires AllWellFormed(cs) && Last(last) && n < |Wire(cs, last)|
    ensures Chunks(0, Wire(cs, last)[..n]) == None
    decreases |cs|
  {
    if cs == [] {
      CutSizeLine(last, 0, n);
    } else {
      var first, rest := WireOf(cs[0]), Wire(cs[1..], last);
      if n < |first| {
        assert Wire(cs, last)[..n] == first[..n];
        CutChunk(cs[0], n);
      } else {
        assert Wire(cs, last)[..n] == first + rest[..n - |first|];
        CutMessageIsAnError(cs[1..], last, n - |first|);
        OneChunk(cs[0], rest[..n - |first|]);
      }
    }
  }

  // ---- sizes as senders write them ---------------------------------------------------------

  function HexDigit(d: nat): Byte
    requires d < 16
  {
    if d < 10 then 48 + d else 87 + d
  }

  function Hex(n: nat): seq<Byte> {
    (if n < 16 then [] else Hex(n / 16)) + [HexDigit(n % 16)]
  }

  lemma {:induction false} DigitsAppend(s: seq<Byte>, t: seq<Byte>, sofar: nat)
    ensures HexDigits(s + t, sofar) == match HexDigits(s, sofar) case None => None case Some(v) => HexDigits(t, v)
  {
    if s == [] {
      assert s + t == t;
    } else {
      assert (s + t)[1..] == s[1..] + t;
      match HexValue(s[0])
      case None =>
      case Some(d) => if sofar * 16 + d < U64_LIMIT { DigitsAppend(s[1..], t, sofar * 16 + d); }
    }
  }

  lemma {:induction false} DigitValue(d: nat)
    requires d < 16
    ensures HexValue(HexDigit(d)) == Some(d) && HexDigit(d) != PLUS && HexDigit(d) != SEMICOLON && HexDigit(d) != CR && HexDigit(d) != LF
  {
  }

  /** The usual way to write a size is read back as that size, for every size of 64 bits. */
  lemma {:induction false} HexReadsBack(n: nat)
    requires n < U64_LIMIT
    ensures HexDigits(Hex(n), 0) == Some(n) && Hex(n) != [] && Hex(n)[0] != PLUS
    decreases n
  {
    DigitValue(n % 16);
    if n >= 16 {
      HexReadsBack(n / 16);
      DigitsAppend(Hex(n / 16), [HexDigit(n % 16)], 0);
    }
    var one := [HexDigit(n % 16)];
    assert one[1..] == [];
  }
}
