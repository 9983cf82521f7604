/** The backup manifest as text: printed line by line, read back line by line, and exactly when that round trip holds. */
module ManifestText {
  import opened Basics

  type U64 = x: nat | x < 0x1_0000_0000_0000_0000

  datatype PairRecord = PairRecord(index: U64, master: string, epoch: string, sequence: U64)

  datatype ObjectRecord = ObjectRecord(key: string, bytes: U64, sha: string)

  datatype Manifest = Manifest(id: string, started: U64, finished: U64, release: string, cpSource: string,
                               pairs: seq<PairRecord>, objects: seq<ObjectRecord>)

  const FORMAT: nat := 1

  // ---- strings --------------------------------------------------------------------

  /** Unicode White_Space. */
  predicate IsSpace(c: char) {
    var n := c as int;
    || 9 <= n <= 13 || n == 0x20 || n == 0x85 || n == 0xA0 || n == 0x1680 || 0x2000 <= n <= 0x200A
    || n == 0x2028 || n == 0x2029 || n == 0x202F || n == 0x205F || n == 0x3000
  }

  function TrimEnd(s: string): string {
    if s == "" || !IsSpace(s[|s| - 1]) then s else TrimEnd(s[..|s| - 1])
  }

  /** The parts between single spaces; one part at least. */
  function Split(s: string): seq<string> {
    if s == "" then [""]
    else
      var rest := Split(s[1..]);
      if s[0] == ' ' then [""] + rest else [[s[0]] + rest[0]] + rest[1..]
  }

  function Lines(s: string): seq<string> {
    if s == "" then []
    else if s[0] == '\n' then [""] + Lines(s[1..])
    else
      var rest := Lines(s[1..]);
      if rest == [] then [[s[0]]] else [[s[0]] + rest[0]] + rest[1..]
  }

  function Digit(d: nat): char
    requires d < 10
  {
    (48 + d) as char
  }

  function Decimal(n: nat): string {
    (if n < 10 then "" else Decimal(n / 10)) + [Digit(n % 10)]
  }

  /** Decimal digits continuing a number below a limit. */
  function Digits(s: string, sofar: nat, limit: nat): Option<nat> {
    if s == "" then Some(sofar)
    else if !('0' <= s[0] <= '9') then None
    else
      var next := sofar * 10 + (s[0] as int - 48);
      if next < limit then Digits(s[1..], next, limit) else None
  }

  /** An optional plus sign and at least one digit. */
  function ParseNumber(s: string, limit: nat): Option<nat> {
    var digits := if s != "" && s[0] == '+' then s[1..] else s;
    if digits == "" then None else Digits(digits, 0, limit)
  }

  const U64_LIMIT: nat := 0x1_0000_0000_0000_0000
  const U32_LIMIT: nat := 0x1_0000_0000

  // ---- printing ---------------------------------------------------------------------

  function PairLine(p: PairRecord): string {
    "pair" + " " + (Decimal(p.index) + " " + (p.master + " " + (p.epoch + " " + Decimal(p.sequence))))
  }

  function ObjectLine(o: ObjectRecord): string {
    "object" + " " + (o.key + " " + (Decimal(o.bytes) + " " + o.sha))
  }

  function HeaderLines(m: Manifest): seq<string> {
    ["format" + " " + Decimal(FORMAT), "id" + " " + m.id, "started" + " " + Decimal(m.started),
     "finished" + " " + Decimal(m.finished), "release" + " " + m.release, "cp-source" + " " + m.cpSource]
  }

  function PairLines(ps: seq<PairRecord>): seq<string> {
    if ps == [] then [] else [PairLine(ps[0])] + PairLines(ps[1..])
  }

  function ObjectLines(os: seq<ObjectRecord>): seq<string> {
    if os == [] then [] else [ObjectLine(os[0])] + ObjectLines(os[1..])
  }

  function Unlines(ls: seq<string>): string {
    if ls == [] then "" else ls[0] + "\n" + Unlines(ls[1..])
  }

  function Render(m: Manifest): string { Unlines(HeaderLines(m) + PairLines(m.pairs) + ObjectLines(m.objects)) }

  // ---- reading ------------------------------------------------------------------------

  datatype Error = Malformed | Format(found: nat)

  datatype Result = Ok(m: Manifest) | Err(e: Error)

  datatype Acc = Reading(m: Manifest, formatSeen: bool) | Failed(e: Error)

  /** One line's fields; fields beyond those a key takes are ignored. */
  function Apply(m: Manifest, seen: bool, f: seq<string>): Acc
    requires f != []
  {
    var key := f[0];
    var value := if |f| > 1 then f[1] else "";
    if key == "format" then
      (match if |f| > 1 then ParseNumber(value, U32_LIMIT) else None
       case None => Failed(Malformed)
       case Some(v) => if v != FORMAT then Failed(Format(v)) else Reading(m, true))
    else if key == "id" then Reading(m.(id := value), seen)
    else if key == "started" then
      (match if |f| > 1 then ParseNumber(value, U64_LIMIT) else None
       case None => Failed(Malformed)
       case Some(v) => if v < U64_LIMIT then Reading(m.(started := v), seen) else Failed(Malformed))
    else if key == "finished" then
      (match if |f| > 1 then ParseNumber(value, U64_LIMIT) else None
       case None => Failed(Malformed)
       case Some(v) => if v < U64_LIMIT then Reading(m.(finished := v), seen) else Failed(Malformed))
    else if key == "release" then Reading(m.(release := value), seen)
    else if key == "cp-source" then Reading(m.(cpSource := value), seen)
    else if key == "pair" then ApplyPair(m, seen, f)
    else if key == "object" then ApplyObject(m, seen, f)
    else Failed(Malformed)
  }

  function ApplyPair(m: Manifest, seen: bool, f: seq<string>): Acc {
    if |f| < 5 then Failed(Malformed) else
    var index, sequence := ParseNumber(f[1], U64_LIMIT), ParseNumber(f[4], U64_LIMIT);
    if index.None? || sequence.None? || index.value >= U64_LIMIT || sequence.value >= U64_LIMIT then Failed(Malformed)
    else Reading(m.(pairs := m.pairs + [PairRecord(index.value, f[2], f[3], sequence.value)]), seen)
  }

  function ApplyObject(m: Manifest, seen: bool, f: seq<string>): Acc {
    if |f| < 4 then Failed(Malformed) else
    var bytes := ParseNumber(f[2], U64_LIMIT);
    if bytes.None? || bytes.value >= U64_LIMIT then Failed(Malformed)
    else Reading(m.(objects := m.objects + [ObjectRecord(f[1], bytes.value, f[3])]), seen)
  }

  function ReadLine(acc: Acc, line: string): Acc {
    var t := TrimEnd(line);
    if acc.Failed? || t == "" then acc else Apply(acc.m, acc.formatSeen, Split(t))
  }

  function Fold(f: (Acc, string) -> Acc, acc: Acc, lines: seq<string>): Acc
    decreases |lines|
  {
    if lines == [] then acc else Fold(f, f(acc, lines[0]), lines[1..])
  }

  function ReadLines(acc: Acc, lines: seq<string>): Acc { Fold(ReadLine, acc, lines) }

  const BLANK := Manifest("", 0, 0, "", "", [], [])

  function Finish(acc: Acc): Result {
    match acc
    case Failed(e) => Err(e)
    case Reading(m, seen) => if !seen || m.id == "" then Err(Malformed) else Ok(m)
  }

  function Parse(raw: string): Result { Finish(ReadLines(Reading(BLANK, false), Lines(raw))) }

  // ---- the two as they run -----------------------------------------------------------------

  lemma {:induction false} UnlinesAppend(a: seq<string>, b: seq<string>)
    ensures Unlines(a + b) == Unlines(a) + Unlines(b)
  {
    if a == [] {
      assert a + b == b;
    } else {
      assert (a + b)[1..] == a[1..] + b;
      UnlinesAppend(a[1..], b);
    }
  }

  /** Append one line to the text of the lines before it. */
  method PushLine(s: string, line: string, ghost done: seq<string>) returns (s': string)
    requires s == Unlines(done)
    ensures s' == Unlines(done + [line])
  {
    UnlinesAppend(done, [line]);
    assert [line][1..] == [] && Unlines([]) == "";
    s' := s + line + "\n";
    assert s' == s + (line + "\n" + "");
  }

  method RenderHeader(m: Manifest) returns (s: string)
    ensures s == Unlines(HeaderLines(m))
  {
    ghost var h := HeaderLines(m);
    assert [] + [h[0]] == h[..1] && h[..1] + [h[1]] == h[..2] && h[..2] + [h[2]] == h[..3];
    assert h[..3] + [h[3]] == h[..4] && h[..4] + [h[4]] == h[..5] && h[..5] + [h[5]] == h;
    s := "";
    s := PushLine(s, "format" + " " + Decimal(FORMAT), []);
    s := PushLine(s, "id" + " " + m.id, h[..1]);
    s := PushLine(s, "started" + " " + Decimal(m.started), h[..2]);
    s := PushLine(s, "finished" + " " + Decimal(m.finished), h[..3]);
    s := PushLine(s, "release" + " " + m.release, h[..4]);
    s := PushLine(s, "cp-source" + " " + m.cpSource, h[..5]);
  }

  method RenderPairs(s: string, ps: seq<PairRecord>, ghost done: seq<string>) returns (s': string)
    requires s == Unlines(done)
    ensures s' == Unlines(done + PairLines(ps))
  {
    s' := s;
    ghost var now := done;
    for i := 0 to |ps|
      invariant s' == Unlines(now) && now + PairLines(ps[i..]) == done + PairLines(ps)
    {
      var line := PairLine(ps[i]);
      s' := PushLine(s', line, now);
      assert now + ([line] + PairLines(ps[i + 1..])) == (now + [line]) + PairLines(ps[i + 1..]);
      now := now + [line];
    }
    assert now == now + PairLines(ps[|ps|..]);
  }

  method RenderObjects(s: string, os: seq<ObjectRecord>, ghost done: seq<string>) returns (s': string)
    requires s == Unlines(done)
    ensures s' == Unlines(done + ObjectLines(os))
  {
    s' := s;
    ghost var now := done;
    for i := 0 to |os|
      invariant s' == Unlines(now) && now + ObjectLines(os[i..]) == done + ObjectLines(os)
    {
      var line := ObjectLine(os[i]);
      s' := PushLine(s', line, now);
      assert now + ([line] + ObjectLines(os[i + 1..])) == (now + [line]) + ObjectLines(os[i + 1..]);
      now := now + [line];
    }
    assert now == now + ObjectLines(os[|os|..]);
  }

  method RenderText(m: Manifest) returns (s: string)
    ensures s == Render(m)
  {
    s := RenderHeader(m);
    s := RenderPairs(s, m.pairs, HeaderLines(m));
    s := RenderObjects(s, m.objects, HeaderLines(m) + PairLines(m.pairs));
  }

  method ParseText(raw: string) returns (r: Result)
    ensures r == Parse(raw)
  {
    var lines := Lines(raw);
    var acc := Reading(BLANK, false);
    for n := 0 to |lines|
      invariant acc.Reading? && ReadLines(acc, lines[n..]) == ReadLines(Reading(BLANK, false), lines)
    {
      acc := ReadLine(acc, lines[n]);
      if acc.Failed? {
        FailedStays(acc, lines[n + 1..]);
        return Err(acc.e);
      }
    }
    assert lines[|lines|..] == [];
    if !acc.formatSeen { return Err(Malformed); }
    if acc.m.id == "" { return Err(Malformed); }
    r := Ok(acc.m);
  }

  lemma {:induction false} FoldStays(f: (Acc, string) -> Acc, acc: Acc, lines: seq<string>)
    requires forall l :: f(acc, l) == acc
    ensures Fold(f, acc, lines) == acc
    decreases |lines|
  {
    if lines != [] { FoldStays(f, acc, lines[1..]); }
  }

  lemma {:induction false} FailedStays(acc: Acc, lines: seq<string>)
    requires acc.Failed?
    ensures ReadLines(acc, lines) == acc
  {
    FoldStays(ReadLine, acc, lines);
  }

  // ---- numbers read back -----------------------------------------------------------------

  lemma {:induction false} DigitsAppend(s: string, t: string, sofar: nat, limit: nat)
    ensures Digits(s + t, sofar, limit) == match Digits(s, sofar, limit) case None => None case Some(v) => Digits(t, v, limit)
  {
    if s == "" {
      assert s + t == t;
    } else {
      assert (s + t)[1..] == s[1..] + t;
      if '0' <= s[0] <= '9' && sofar * 10 + (s[0] as int - 48) < limit {
        DigitsAppend(s[1..], t, sofar * 10 + (s[0] as int - 48), limit);
      }
    }
  }

  lemma {:induction false} DecimalReadsBack(n: nat, limit: nat)
    requires n < limit
    ensures Digits(Decimal(n), 0, limit) == Some(n) && Decimal(n) != "" && '0' <= Decimal(n)[0] <= '9'
    ensures '0' <= Decimal(n)[|Decimal(n)| - 1] <= '9'
    decreases n
  {
    var last := [Digit(n % 10)];
    assert last[1..] == "";
    if n >= 10 {
      DecimalReadsBack(n / 10, limit);
      DigitsAppend(Decimal(n / 10), last, 0, limit);
    }
  }

  lemma {:induction false} NumberReadsBack(n: nat, limit: nat)
    requires n < limit
    ensures ParseNumber(Decimal(n), limit) == Some(n)
  {
    DecimalReadsBack(n, limit);
  }

  // ---- what a parse can yield ---------------------------------------------------------------

  predicate Free(s: string, c: char) { forall i :: 0 <= i < |s| ==> s[i] != c }

  /** No space and no newline: the string survives as one field of one line. */
  predicate Plain(s: string) { Free(s, ' ') && Free(s, '\n') }

  predicate AllFree(ss: seq<string>, c: char) { forall i :: 0 <= i < |ss| ==> Free(ss[i], c) }

  lemma {:induction false} LinesAreFree(s: string)
    ensures AllFree(Lines(s), '\n')
  {
    if s != "" { LinesAreFree(s[1..]); }
  }

  lemma {:induction false} PartsAreFree(s: string)
    ensures AllFree(Split(s), ' ')
    ensures Free(s, '\n') ==> AllFree(Split(s), '\n')
  {
    if s != "" {
      PartsAreFree(s[1..]);
      assert Free(s, '\n') ==> Free(s[1..], '\n');
    }
  }

  lemma {:induction false} TrimIsPrefix(s: string)
    ensures TrimEnd(s) <= s
  {
    if s != "" && IsSpace(s[|s| - 1]) { TrimIsPrefix(s[..|s| - 1]); }
  }

  predicate PlainPair(p: PairRecord) { Plain(p.master) && Plain(p.epoch) }

  predicate PlainObject(o: ObjectRecord) { Plain(o.key) && Plain(o.sha) }

  predicate PlainManifest(m: Manifest) {
    && Plain(m.id) && Plain(m.release) && Plain(m.cpSource)
    && (forall i :: 0 <= i < |m.pairs| ==> PlainPair(m.pairs[i]))
    && (forall i :: 0 <= i < |m.objects| ==> PlainObject(m.objects[i]))
  }

  lemma {:induction false} ApplyKeepsPlain(m: Manifest, seen: bool, f: seq<string>)
    requires PlainManifest(m) && f != [] && AllFree(f, ' ') && AllFree(f, '\n')
    ensures Apply(m, seen, f).Reading? ==> PlainManifest(Apply(m, seen, f).m)
  {
    assert forall i :: 0 <= i < |f| ==> Plain(f[i]);
    assert Plain("");
  }

  lemma {:induction false} ReadKeepsPlain(acc: Acc, lines: seq<string>)
    requires AllFree(lines, '\n') && (acc.Reading? ==> PlainManifest(acc.m))
    ensures ReadLines(acc, lines).Reading? ==> PlainManifest(ReadLines(acc, lines).m)
    decreases |lines|
  {
    if lines != [] {
      var t := TrimEnd(lines[0]);
      TrimIsPrefix(lines[0]);
      if acc.Reading? && t != "" {
        PartsAreFree(t);
        ApplyKeepsPlain(acc.m, acc.formatSeen, Split(t));
      }
      assert AllFree(lines[1..], '\n');
      ReadKeepsPlain(ReadLine(acc, lines[0]), lines[1..]);
    }
  }

  /** Whatever text is parsed, the strings of the manifest it yields have no space and no newline. */
  lemma {:induction false} ParsedIsPlain(raw: string)
    requires Parse(raw).Ok?
    ensures PlainManifest(Parse(raw).m) && Parse(raw).m.id != ""
  {
    LinesAreFree(raw);
    ReadKeepsPlain(Reading(BLANK, false), Lines(raw));
  }

  // ---- what a print of plain strings is read back as --------------------------------------------

  lemma {:induction false} LinesCons(l: string, rest: string)
    requires Free(l, '\n')
    ensures Lines(l + "\n" + rest) == [l] + Lines(rest)
  {
    var s := l + "\n" + rest;
    if l == "" {
      assert s[1..] == rest;
    } else {
      assert s[1..] == l[1..] + "\n" + rest;
      LinesCons(l[1..], rest);
      assert [l[0]] + l[1..] == l;
    }
  }

  lemma {:induction false} LinesOfUnlines(ls: seq<string>)
    requires AllFree(ls, '\n')
    ensures Lines(Unlines(ls)) == ls
  {
    if ls != [] {
      LinesOfUnlines(ls[1..]);
      LinesCons(ls[0], Unlines(ls[1..]));
    }
  }

  lemma {:induction false} TrimAppend(a: string, b: string)
    ensures TrimEnd(a + b) == if TrimEnd(b) != "" then a + TrimEnd(b) else TrimEnd(a)
    decreases |b|
  {
    if b == "" {
      assert a + b == a;
    } else {
      var n := |b| - 1;
      assert (a + b)[..|a| + n] == a + b[..n];
      if IsSpace(b[n]) { TrimAppend(a, b[..n]); }
    }
  }

  lemma {:induction false} SplitCons(part: string, rest: string)
    requires Free(part, ' ')
    ensures Split(part + " " + rest) == [part] + Split(rest)
  {
    var s := part + " " + rest;
    if part == "" {
      assert s[1..] == rest;
    } else {
      assert s[1..] == part[1..] + " " + rest;
      SplitCons(part[1..], rest);
      assert [part[0]] + part[1..] == part;
    }
  }

  lemma {:induction false} SplitOne(part: string)
    requires Free(part, ' ')
    ensures Split(part) == [part]
  {
    if part != "" {
      SplitOne(part[1..]);
      assert [part[0]] + part[1..] == part;
    }
  }

  predicate EndsDark(s: string) { s != "" && !IsSpace(s[|s| - 1]) }

  lemma {:induction false} TrimNothing(s: string)
    requires EndsDark(s)
    ensures TrimEnd(s) == s
  {
  }

  lemma {:induction false} TrimStaysFree(s: string, c: char)
    requires Free(s, c)
    ensures Free(TrimEnd(s), c)
  {
    TrimIsPrefix(s);
  }

  /** The fields of a line that ends in a value: a value of nothing but white space is lost with the space before it. */
  lemma {:induction false} FieldsThenValue(front: string, value: string)
    requires EndsDark(front) && Free(value, ' ')
    ensures TrimEnd(front + " " + value) == if TrimEnd(value) == "" then front else front + " " + TrimEnd(value)
  {
    TrimAppend(front + " ", value);
    TrimAppend(front, " ");
    assert " "[..0] == "" && TrimEnd("") == "" && TrimEnd(" ") == "";
    assert front + " " + value == (front + " ") + value;
  }

  lemma {:induction false} ValueLine(key: string, value: string)
    requires EndsDark(key) && Free(key, ' ') && Free(value, ' ')
    ensures TrimEnd(key + " " + value) != ""
    ensures Split(TrimEnd(key + " " + value)) == if TrimEnd(value) == "" then [key] else [key, TrimEnd(value)]
  {
    FieldsThenValue(key, value);
    TrimStaysFree(value, ' ');
    SplitOne(key);
    SplitCons(key, TrimEnd(value));
    SplitOne(TrimEnd(value));
  }

  lemma {:induction false} DecimalIsPlain(n: nat)
    ensures Plain(Decimal(n)) && EndsDark(Decimal(n)) && TrimEnd(Decimal(n)) == Decimal(n)
  {
    DecimalReadsBack(n, n + 1);
    if n >= 10 { DecimalIsPlain(n / 10); }
  }

  lemma {:induction false} NumberLine(key: string, n: nat)
    requires EndsDark(key) && Free(key, ' ')
    ensures TrimEnd(key + " " + Decimal(n)) != "" && Split(TrimEnd(key + " " + Decimal(n))) == [key, Decimal(n)]
  {
    DecimalIsPlain(n);
    ValueLine(key, Decimal(n));
  }

  lemma {:induction false} FoldAppend(f: (Acc, string) -> Acc, acc: Acc, a: seq<string>, b: seq<string>)
    ensures Fold(f, acc, a + b) == Fold(f, Fold(f, acc, a), b)
    decreases |a|
  {
    if a == [] {
      assert a + b == b;
    } else {
      assert (a + b)[1..] == a[1..] + b;
      FoldAppend(f, f(acc, a[0]), a[1..], b);
    }
  }

  function HeaderRead(m: Manifest): Manifest {
    Manifest(TrimEnd(m.id), m.started, m.finished, TrimEnd(m.release), TrimEnd(m.cpSource), [], [])
  }

  lemma {:induction false} ReadText(m: Manifest, seen: bool, key: string, value: string)
    requires key == "id" || key == "release" || key == "cp-source"
    requires Free(value, ' ')
    ensures ReadLine(Reading(m, seen), key + " " + value)
            == Reading(if key == "id" then m.(id := TrimEnd(value))
                       else if key == "release" then m.(release := TrimEnd(value))
                       else m.(cpSource := TrimEnd(value)), seen)
  {
    ValueLine(key, value);
  }

  lemma {:induction false} ReadNumber(m: Manifest, seen: bool, n: U64)
    ensures ReadLine(Reading(m, seen), "started" + " " + Decimal(n)) == Reading(m.(started := n), seen)
    ensures ReadLine(Reading(m, seen), "finished" + " " + Decimal(n)) == Reading(m.(finished := n), seen)
  {
    NumberLine("started", n);
    NumberLine("finished", n);
    NumberReadsBack(n, U64_LIMIT);
  }

  lemma {:induction false} ReadFormat(m: Manifest, seen: bool)
    ensures ReadLine(Reading(m, seen), "format" + " " + Decimal(FORMAT)) == Reading(m, true)
  {
    NumberLine("format", FORMAT);
    NumberReadsBack(FORMAT, U32_LIMIT);
  }

  lemma {:induction false} ReadHeader(m: Manifest)
    requires PlainManifest(m)
    ensures ReadLines(Reading(BLANK, false), HeaderLines(m)) == Reading(HeaderRead(m), true)
  {
    var h := HeaderLines(m);
    var m1 := BLANK.(id := TrimEnd(m.id));
    var m2 := m1.(started := m.started);
    var m3 := m2.(finished := m.finished);
    var m4 := m3.(release := TrimEnd(m.release));
    ReadFormat(BLANK, false);
    ReadText(BLANK, true, "id", m.id);
    ReadNumber(m1, true, m.started);
    ReadNumber(m2, true, m.finished);
    ReadText(m3, true, "release", m.release);
    ReadText(m4, true, "cp-source", m.cpSource);
    var end := Reading(HeaderRead(m), true);
    assert h[5..][1..] == [] && ReadLines(end, []) == end;
    assert h[4..][1..] == h[5..] && h[3..][1..] == h[4..] && h[2..][1..] == h[3..] && h[1..][1..] == h[2..];
    assert ReadLines(Reading(m4, true), h[5..]) == end;
    assert ReadLines(Reading(m3, true), h[4..]) == end;
    assert ReadLines(Reading(m2, true), h[3..]) == end;
    assert ReadLines(Reading(m1, true), h[2..]) == end;
    assert ReadLines(Reading(BLANK, true), h[1..]) == end;
  }

  lemma {:induction false} PairFields(p: PairRecord)
    requires PlainPair(p)
    ensures TrimEnd(PairLine(p)) == PairLine(p) != ""
    ensures Split(PairLine(p)) == ["pair", Decimal(p.index), p.master, p.epoch, Decimal(p.sequence)]
  {
    var last := Decimal(p.sequence);
    DecimalIsPlain(p.index);
    DecimalIsPlain(p.sequence);
    SplitOne(last);
    SplitCons(p.epoch, last);
    SplitCons(p.master, p.epoch + " " + last);
    SplitCons(Decimal(p.index), p.master + " " + (p.epoch + " " + last));
    SplitCons("pair", Decimal(p.index) + " " + (p.master + " " + (p.epoch + " " + last)));
    assert EndsDark(PairLine(p));
    TrimNothing(PairLine(p));
  }

  // Records of one kind, line by line: folding the lines is folding the records.

  function FoldRecords<T>(step: (Acc, T) -> Acc, acc: Acc, xs: seq<T>): Acc
    decreases |xs|
  {
    if xs == [] then acc else FoldRecords(step, step(acc, xs[0]), xs[1..])
  }

  lemma {:induction false} FoldByRecord<T(!new)>(f: (Acc, string) -> Acc, step: (Acc, T) -> Acc, acc: Acc, lines: seq<string>, xs: seq<T>)
    requires |lines| == |xs| && forall a: Acc, i: nat {:trigger f(a, lines[i])} :: i < |xs| ==> f(a, lines[i]) == step(a, xs[i])
    ensures Fold(f, acc, lines) == FoldRecords(step, acc, xs)
    decreases |xs|
  {
    if xs != [] {
      var a := f(acc, lines[0]);
      assert a == step(acc, xs[0]);
      forall b: Acc, i: nat | i < |xs[1..]| ensures f(b, lines[1..][i]) == step(b, xs[1..][i]) {
        assert f(b, lines[i + 1]) == step(b, xs[i + 1]);
      }
      FoldByRecord(f, step, a, lines[1..], xs[1..]);
    }
  }

  function AddPair(acc: Acc, p: PairRecord): Acc {
    if acc.Failed? then acc else Reading(acc.m.(pairs := acc.m.pairs + [p]), acc.formatSeen)
  }

  lemma {:induction false} ReadPair(acc: Acc, p: PairRecord)
    requires PlainPair(p)
    ensures ReadLine(acc, PairLine(p)) == AddPair(acc, p)
  {
    PairFields(p);
    NumberReadsBack(p.index, U64_LIMIT);
    NumberReadsBack(p.sequence, U64_LIMIT);
  }

  lemma {:induction false} PairLineAt(ps: seq<PairRecord>, i: nat)
    requires i < |ps|
    ensures |PairLines(ps)| == |ps| && PairLines(ps)[i] == PairLine(ps[i])
  {
    if |ps| > 1 { PairLineAt(ps[1..], if i > 0 then i - 1 else 0); }
  }

  lemma {:induction false} AddPairs(acc: Acc, ps: seq<PairRecord>)
    requires acc.Reading?
    ensures FoldRecords(AddPair, acc, ps) == Reading(acc.m.(pairs := acc.m.pairs + ps), acc.formatSeen)
    decreases |ps|
  {
    if ps == [] {
      assert acc.m.pairs + ps == acc.m.pairs;
    } else {
      AddPairs(AddPair(acc, ps[0]), ps[1..]);
      assert acc.m.pairs + [ps[0]] + ps[1..] == acc.m.pairs + ps;
    }
  }

  lemma {:induction false} ReadPairs(acc: Acc, ps: seq<PairRecord>)
    requires acc.Reading? && forall i :: 0 <= i < |ps| ==> PlainPair(ps[i])
    ensures ReadLines(acc, PairLines(ps)) == Reading(acc.m.(pairs := acc.m.pairs + ps), acc.formatSeen)
  {
    var lines := PairLines(ps);
    if ps != [] { PairLineAt(ps, 0); }
    forall a: Acc, i: nat | i < |ps| ensures ReadLine(a, lines[i]) == AddPair(a, ps[i]) {
      PairLineAt(ps, i);
      ReadPair(a, ps[i]);
    }
    FoldByRecord(ReadLine, AddPair, acc, lines, ps);
    AddPairs(acc, ps);
  }

  /** The object line without its checksum. */
  function ObjectFront(o: ObjectRecord): string { "object" + " " + (o.key + " " + Decimal(o.bytes)) }

  lemma {:induction false} ObjectTrims(o: ObjectRecord)
    ensures PlainObject(o) ==>
            TrimEnd(ObjectLine(o)) == if TrimEnd(o.sha) == "" then ObjectFront(o) else ObjectFront(o) + " " + TrimEnd(o.sha)
  {
    if PlainObject(o) {
      DecimalIsPlain(o.bytes);
      assert EndsDark(ObjectFront(o));
      FieldsThenValue(ObjectFront(o), o.sha);
      assert ObjectLine(o) == ObjectFront(o) + " " + o.sha;
    }
  }

  lemma {:induction false} ObjectSplits(key: string, tail: string)
    requires Free(key, ' ')
    ensures Split("object" + " " + (key + " " + tail)) == ["object", key] + Split(tail)
  {
    SplitCons(key, tail);
    SplitCons("object", key + " " + tail);
    assert ["object"] + ([key] + Split(tail)) == ["object", key] + Split(tail);
  }

  lemma {:induction false} Regroup(key: string, d: string, sha: string)
    ensures ("object" + " " + (key + " " + d)) + " " + sha == "object" + " " + (key + " " + (d + " " + sha))
  {
  }

  lemma {:induction false} ObjectWithSha(key: string, d: string, sha: string)
    requires Free(key, ' ') && Free(d, ' ') && Free(sha, ' ')
    ensures Split(("object" + " " + (key + " " + d)) + " " + sha) == ["object", key, d, sha]
  {
    Regroup(key, d, sha);
    ObjectSplits(key, d + " " + sha);
    SplitCons(d, sha);
    SplitOne(sha);
  }

  lemma {:induction false} ObjectFields(o: ObjectRecord)
    requires PlainObject(o)
    ensures TrimEnd(ObjectLine(o)) != ""
    ensures Split(TrimEnd(ObjectLine(o)))
            == if TrimEnd(o.sha) == "" then ["object", o.key, Decimal(o.bytes)]
               else ["object", o.key, Decimal(o.bytes), TrimEnd(o.sha)]
  {
    ObjectTrims(o);
    DecimalIsPlain(o.bytes);
    if TrimEnd(o.sha) == "" {
      ObjectSplits(o.key, Decimal(o.bytes));
      SplitOne(Decimal(o.bytes));
    } else {
      TrimStaysFree(o.sha, ' ');
      ObjectWithSha(o.key, Decimal(o.bytes), TrimEnd(o.sha));
    }
  }

  function TrimmedObject(o: ObjectRecord): ObjectRecord { ObjectRecord(o.key, o.bytes, TrimEnd(o.sha)) }

  function TrimmedObjects(os: seq<ObjectRecord>): seq<ObjectRecord> {
    if os == [] then [] else [TrimmedObject(os[0])] + TrimmedObjects(os[1..])
  }

  /** Some object's checksum is empty or all white space. */
  predicate AnyBlank(os: seq<ObjectRecord>) {
    os != [] && (TrimEnd(os[0].sha) == "" || AnyBlank(os[1..]))
  }

  /** What one object line adds. */
  function AddObject(acc: Acc, o: ObjectRecord): Acc {
    if acc.Failed? then acc
    else if TrimEnd(o.sha) == "" then Failed(Malformed)
    else WithObjects(acc, [TrimmedObject(o)])
  }

  function WithObjects(acc: Acc, os: seq<ObjectRecord>): Acc
    requires acc.Reading?
  {
    Reading(acc.m.(objects := acc.m.objects + os), acc.formatSeen)
  }

  lemma {:induction false} WithObjectsTwice(acc: Acc, a: seq<ObjectRecord>, b: seq<ObjectRecord>)
    requires acc.Reading?
    ensures WithObjects(WithObjects(acc, a), b) == WithObjects(acc, a + b)
  {
    assert acc.m.objects + a + b == acc.m.objects + (a + b);
  }

  lemma {:induction false} ReadObject(acc: Acc, o: ObjectRecord)
    requires PlainObject(o)
    ensures ReadLine(acc, ObjectLine(o)) == AddObject(acc, o)
  {
    ObjectFields(o);
    NumberReadsBack(o.bytes, U64_LIMIT);
  }

  lemma {:induction false} ObjectLineAt(os: seq<ObjectRecord>, i: nat)
    requires i < |os|
    ensures |ObjectLines(os)| == |os| && ObjectLines(os)[i] == ObjectLine(os[i])
  {
    if |os| > 1 { ObjectLineAt(os[1..], if i > 0 then i - 1 else 0); }
  }

  lemma {:induction false} AddToFailed(e: Error, os: seq<ObjectRecord>)
    ensures FoldRecords(AddObject, Failed(e), os) == Failed(e)
    decreases |os|
  {
    if os != [] { AddToFailed(e, os[1..]); }
  }

  lemma {:induction false} AddObjects(acc: Acc, os: seq<ObjectRecord>)
    requires acc.Reading?
    ensures FoldRecords(AddObject, acc, os) == if AnyBlank(os) then Failed(Malformed) else WithObjects(acc, TrimmedObjects(os))
    decreases |os|
  {
    if os == [] {
      assert acc.m.objects + [] == acc.m.objects;
    } else if TrimEnd(os[0].sha) == "" {
      AddToFailed(Malformed, os[1..]);
    } else {
      var one := [TrimmedObject(os[0])];
      AddObjects(WithObjects(acc, one), os[1..]);
      WithObjectsTwice(acc, one, TrimmedObjects(os[1..]));
    }
  }

  lemma {:induction false} ReadObjects(acc: Acc, os: seq<ObjectRecord>)
    requires acc.Reading? && forall i :: 0 <= i < |os| ==> PlainObject(os[i])
    ensures ReadLines(acc, ObjectLines(os)) == if AnyBlank(os) then Failed(Malformed) else WithObjects(acc, TrimmedObjects(os))
  {
    var lines := ObjectLines(os);
    if os != [] { ObjectLineAt(os, 0); }
    forall a: Acc, i: nat | i < |os| ensures ReadLine(a, lines[i]) == AddObject(a, os[i]) {
      ObjectLineAt(os, i);
      ReadObject(a, os[i]);
    }
    FoldByRecord(ReadLine, AddObject, acc, lines, os);
    AddObjects(acc, os);
  }

  // ---- the round trip ------------------------------------------------------------------------------

  lemma {:induction false} LinesAllFree(m: Manifest)
    requires PlainManifest(m)
    ensures AllFree(HeaderLines(m) + PairLines(m.pairs) + ObjectLines(m.objects), '\n')
  {
    DecimalIsPlain(FORMAT);
    DecimalIsPlain(m.started);
    DecimalIsPlain(m.finished);
    PairLinesFree(m.pairs);
    ObjectLinesFree(m.objects);
  }

  lemma {:induction false} PairLinesFree(ps: seq<PairRecord>)
    requires forall i :: 0 <= i < |ps| ==> PlainPair(ps[i])
    ensures AllFree(PairLines(ps), '\n')
  {
    if ps != [] {
      DecimalIsPlain(ps[0].index);
      DecimalIsPlain(ps[0].sequence);
      PairLinesFree(ps[1..]);
    }
  }

  lemma {:induction false} ObjectLinesFree(os: seq<ObjectRecord>)
    requires forall i :: 0 <= i < |os| ==> PlainObject(os[i])
    ensures AllFree(ObjectLines(os), '\n')
  {
    if os != [] {
      DecimalIsPlain(os[0].bytes);
      ObjectLinesFree(os[1..]);
    }
  }

  function Trimmed(m: Manifest): Manifest {
    HeaderRead(m).(pairs := m.pairs, objects := TrimmedObjects(m.objects))
  }

  /** What the print of a manifest with plain strings is read back as. */
  lemma {:induction false} PlainReadsBack(m: Manifest)
    requires PlainManifest(m)
    ensures Parse(Render(m)) == if AnyBlank(m.objects) || TrimEnd(m.id) == "" then Err(Malformed) else Ok(Trimmed(m))
  {
    var h, p, o := HeaderLines(m), PairLines(m.pairs), ObjectLines(m.objects);
    var start := Reading(BLANK, false);
    LinesAllFree(m);
    LinesOfUnlines(h + p + o);
    FoldAppend(ReadLine, start, h + p, o);
    FoldAppend(ReadLine, start, h, p);
    ReadHeader(m);
    ReadPairs(Reading(HeaderRead(m), true), m.pairs);
    assert HeaderRead(m).pairs + m.pairs == m.pairs;
    ReadObjects(Reading(HeaderRead(m).(pairs := m.pairs), true), m.objects);
    assert [] + TrimmedObjects(m.objects) == TrimmedObjects(m.objects);
  }

  /** The string does not end in white space. */
  predicate NoTrailingSpace(s: string) { s == "" || !IsSpace(s[|s| - 1]) }

  /** The manifests whose print is read back unchanged, by conditions on their strings alone. */
  predicate Printable(m: Manifest) {
    && PlainManifest(m) && m.id != ""
    && NoTrailingSpace(m.id) && NoTrailingSpace(m.release) && NoTrailingSpace(m.cpSource)
    && forall i :: 0 <= i < |m.objects| ==> m.objects[i].sha != "" && NoTrailingSpace(m.objects[i].sha)
  }

  lemma {:induction false} TrimFixes(s: string)
    ensures TrimEnd(s) == s <==> NoTrailingSpace(s)
  {
    TrimIsPrefix(s);
    if s != "" && IsSpace(s[|s| - 1]) { TrimIsPrefix(s[..|s| - 1]); }
  }

  lemma {:induction false} TrimmedObjectsFix(os: seq<ObjectRecord>)
    ensures (!AnyBlank(os) && TrimmedObjects(os) == os)
            <==> forall i :: 0 <= i < |os| ==> os[i].sha != "" && NoTrailingSpace(os[i].sha)
  {
    if os != [] {
      TrimmedObjectsFix(os[1..]);
      TrimFixes(os[0].sha);
      assert TrimmedObjects(os) == os <==> (TrimmedObject(os[0]) == os[0] && TrimmedObjects(os[1..]) == os[1..]) by {
        assert os == [os[0]] + os[1..];
      }
      assert forall i :: 0 <= i < |os| - 1 ==> os[1..][i] == os[i + 1];
    }
  }

  /** Parsing undoes printing exactly for the printable manifests, however many pairs and objects they list. */
  lemma {:induction false} RoundTripIff(m: Manifest)
    ensures Parse(Render(m)) == Ok(m) <==> Printable(m)
  {
    if Parse(Render(m)) == Ok(m) { ParsedIsPlain(Render(m)); }
    if PlainManifest(m) {
      PlainReadsBack(m);
      TrimFixes(m.id);
      TrimFixes(m.release);
      TrimFixes(m.cpSource);
      TrimmedObjectsFix(m.objects);
    }
  }

  /** A line that states the format. */
  predicate FormatLine(line: string) { TrimEnd(line) != "" && Split(TrimEnd(line))[0] == "format" }

  function VersionOf(line: string): Option<nat>
    requires FormatLine(line)
  {
    var f := Split(TrimEnd(line));
    if |f| > 1 then ParseNumber(f[1], U32_LIMIT) else None
  }

  predicate AllThisFormat(lines: seq<string>) {
    forall i :: 0 <= i < |lines| && FormatLine(lines[i]) ==> VersionOf(lines[i]) == Some(FORMAT)
  }

  predicate SomeFormat(lines: seq<string>) { exists i :: 0 <= i < |lines| && FormatLine(lines[i]) }

  lemma {:induction false} ReadSaysFormat(acc: Acc, lines: seq<string>)
    requires ReadLines(acc, lines).Reading?
    ensures acc.Reading? && AllThisFormat(lines)
    ensures ReadLines(acc, lines).formatSeen ==> acc.formatSeen || SomeFormat(lines)
    decreases |lines|
  {
    if lines != [] {
      if acc.Failed? { FailedStays(acc, lines); }
      var next := ReadLine(acc, lines[0]);
      ReadSaysFormat(next, lines[1..]);
      assert forall i :: 0 <= i < |lines[1..]| ==> lines[1..][i] == lines[i + 1];
      assert forall i :: 0 < i < |lines| ==> lines[i] == lines[1..][i - 1];
      if next.formatSeen && !acc.formatSeen { assert FormatLine(lines[0]); }
    }
  }

  /** A text is accepted only if it has a format line, and every one it has, wherever it stands, says this format. */
  lemma {:induction false} AcceptedTextsSayFormat(raw: string)
    requires Parse(raw).Ok?
    ensures SomeFormat(Lines(raw)) && AllThisFormat(Lines(raw))
  {
    ReadSaysFormat(Reading(BLANK, false), Lines(raw));
  }

  /** A text that begins with a line of another format is refused for that. */
  lemma {:induction false} OtherFormatsAreRefused(rest: string, v: nat)
    requires v != FORMAT && v < U32_LIMIT
    ensures Parse("format" + " " + Decimal(v) + "\n" + rest) == Err(Format(v))
  {
    var first := "format" + " " + Decimal(v);
    DecimalIsPlain(v);
    LinesCons(first, rest);
    NumberLine("format", v);
    NumberReadsBack(v, U32_LIMIT);
    FailedStays(Failed(Format(v)), Lines(rest));
    assert ([first] + Lines(rest))[1..] == Lines(rest);
  }
}
