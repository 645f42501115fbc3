/** Content-Length framing of the language-server transport (internal/sandbox/lsp.go,
    writeLSPFrame and readLSPFrame): the Header Part and Content Part of the
    Language Server Protocol 3.17, section "Base Protocol".  Streams are byte
    strings, one char per byte. */
module LspFraming {
  import opened Text

  const LENGTH := "Content-Length:"
  const MAX_INT: nat := 0x7FFF_FFFF_FFFF_FFFF

  datatype Error = Eof | BadLength | MissingLength | ShortBody

  datatype Read<+T> = Got(value: T, rest: string) | Fail(error: Error)

  // ---- Reading ----

  /** strings.TrimRight(line, "\r\n") */
  function TrimEol(s: string): (r: string)
    ensures r <= s
  {
    if s != "" && (s[|s| - 1] == '\r' || s[|s| - 1] == '\n') then TrimEol(s[..|s| - 1]) else s
  }

  /** strconv.Atoi: an optional sign, at least one digit, and a 64-bit range. */
  function Atoi(s: string): Option<int>
  {
    var neg := s != "" && s[0] == '-';
    var digits := if s != "" && (s[0] == '-' || s[0] == '+') then s[1..] else s;
    if digits == "" || DigitRun(digits) != |digits| then None
    else
      var v: int := DecimalValue(digits);
      if neg then (if v <= MAX_INT + 1 then Some(-v) else None) else (if v <= MAX_INT then Some(v) else None)
  }

  /** The header loop: lines up to a blank one; the last Content-Length wins, other
      headers are ignored. */
  function ReadHeader(s: string, length: int): (r: Read<int>)
    ensures r.Got? ==> |r.rest| < |s|
    decreases |s|
  {
    match Newline(s)
    case None => Fail(Eof)
    case Some(i) =>
      var line, rest := TrimEol(s[..i + 1]), s[i + 1..];
      if line == "" then Got(length, rest)
      else
        match LengthAfter(line, length)
        case None => Fail(BadLength)
        case Some(n) => ReadHeader(rest, n)
  }

  /** What one header line makes of the length known so far; None is a bad length. */
  function LengthAfter(line: string, length: int): Option<int>
  {
    match CutPrefix(line, LENGTH)
    case None => Some(length)
    case Some(v) => Atoi(TrimSpace(v))
  }

  /** readLSPFrame */
  function ReadFrame(s: string): (r: Read<string>)
  {
    match ReadHeader(s, -1)
    case Fail(e) => Fail(e)
    case Got(n, rest) =>
      if n < 0 then Fail(MissingLength)
      else if |rest| < n then Fail(ShortBody)
      else Got(rest[..n], rest[n..])
  }

  /** What readLoop takes off a stream, and what is left where it stops. */
  function ReadAll(s: string): (r: (seq<string>, string))
    decreases |s|
  {
    match ReadFrame(s)
    case Fail(_) => ([], s)
    case Got(body, rest) =>
      var (more, left) := ReadAll(rest);
      ([body] + more, left)
  }

  ghost predicate IsTail(t: string, s: string) { |t| <= |s| && t == s[|s| - |t|..] }

  lemma TailOfTail(a: string, b: string, c: string)
    requires IsTail(a, b) && IsTail(b, c)
    ensures IsTail(a, c)
  {
  }

  lemma {:induction false} HeaderLeavesTail(s: string, length: int)
    ensures ReadHeader(s, length).Got? ==> IsTail(ReadHeader(s, length).rest, s)
    decreases |s|
  {
    var i := Newline(s);
    if i.None? {
    } else {
      var line, rest := TrimEol(s[..i.value + 1]), s[i.value + 1..];
      assert IsTail(rest, s);
      var n := LengthAfter(line, length);
      if line == "" || n.None? {
      } else {
        HeaderLeavesTail(rest, n.value);
        if ReadHeader(rest, n.value).Got? { TailOfTail(ReadHeader(rest, n.value).rest, rest, s); }
      }
    }
  }

  /** A frame is cut off the front of the stream: header, then the body, then the rest. */
  lemma FrameIsCutOff(s: string)
    ensures ReadFrame(s).Got? ==> |ReadFrame(s).rest| < |s| && IsTail(ReadFrame(s).value + ReadFrame(s).rest, s)
  {
    HeaderLeavesTail(s, -1);
    var h := ReadHeader(s, -1);
    if h.Got? && 0 <= h.value <= |h.rest| {
      assert h.rest == h.rest[..h.value] + h.rest[h.value..];
    }
  }

  // ---- Writing ----

  function HeaderLine(n: nat): string { LENGTH + " " + Decimal(n) + "\r\n" }

  /** writeLSPFrame */
  function WriteFrame(body: string): string
  {
    HeaderLine(|body|) + "\r\n" + body
  }

  /** Any other header a peer may send: one line, not blank, not a Content-Length. */
  predicate OtherHeader(h: string)
  {
    '\n' !in h && TrimEol(h) != "" && !HasPrefix(h, LENGTH)
  }

  function Headers(hs: seq<string>): string
  {
    if hs == [] then "" else hs[0] + "\r\n" + Headers(hs[1..])
  }

  /** A frame with other headers around its Content-Length. */
  function FrameWith(before: seq<string>, body: string, after: seq<string>): string
  {
    Headers(before) + (HeaderLine(|body|) + (Headers(after) + ("\r\n" + body)))
  }

  lemma PlainFrame(body: string)
    ensures FrameWith([], body, []) == WriteFrame(body)
  {
  }

  lemma Regroup(a: string, b: string, c: string)
    ensures (a + b) + c == a + (b + c)
  {
  }

  lemma LengthName()
    ensures LENGTH + " " == "Content-Length: "
  {
  }

  lemma BlankLine()
    ensures "\r\n" + "\r\n" == "\r\n\r\n"
  {
  }

  /** The bytes that are written. */
  lemma WrittenBytes(body: string)
    ensures WriteFrame(body) == "Content-Length: " + Decimal(|body|) + "\r\n\r\n" + body
  {
    LengthName();
    BlankLine();
    FrameParts(LENGTH, " ", Decimal(|body|), "\r\n", body);
  }

  lemma FrameParts(name: string, space: string, digits: string, eol: string, body: string)
    ensures name + space + digits + eol + eol + body == (name + space) + digits + (eol + eol) + body
  {
    Regroup(name + space + digits, eol, eol);
  }

  // ---- Round trips ----

  lemma TrimEolCrLf(line: string)
    ensures TrimEol(line + "\r\n") == TrimEol(line)
  {
    var a := line + "\r\n";
    assert a[..|a| - 1] == line + "\r";
    assert (line + "\r")[..|line|] == line;
  }

  lemma TrimEolDigits(s: string)
    requires s != "" && IsDigit(s[|s| - 1])
    ensures TrimEol(s) == s
  {
  }

  /** One line in, one step of the header loop. */
  lemma HeaderStep(line: string, rest: string, length: int)
    requires '\n' !in line
    ensures var s := line + "\r\n" + rest; var t := TrimEol(line);
      ReadHeader(s, length) ==
        if t == "" then Got(length, rest)
        else match LengthAfter(t, length) case None => Fail(BadLength) case Some(n) => ReadHeader(rest, n)
  {
    var s := line + "\r\n" + rest;
    assert s == (line + "\r") + "\n" + rest;
    NewlineAfter(line + "\r", rest);
    assert s[..|line| + 2] == line + "\r\n" && s[|line| + 2..] == rest;
    TrimEolCrLf(line);
  }

  lemma TrimSpaceDecimal(n: nat)
    ensures TrimSpace(" " + Decimal(n)) == Decimal(n)
  {
    var d := Decimal(n);
    assert (" " + d)[1..] == d;
    assert IsDigit(d[0]) && IsDigit(d[|d| - 1]);
    assert TrimLeft(d) == d && TrimRight(d) == d;
    assert TrimLeft(" " + d) == TrimLeft(d);
  }

  lemma AtoiDecimal(n: nat)
    requires n <= MAX_INT
    ensures Atoi(Decimal(n)) == Some(n)
  {
    DecimalRoundTrip(n);
    assert IsDigit(Decimal(n)[0]);
  }

  lemma LengthStep(n: nat, rest: string, length: int)
    requires n <= MAX_INT
    ensures ReadHeader(HeaderLine(n) + rest, length) == ReadHeader(rest, n)
  {
    var v := " " + Decimal(n);
    var line := LENGTH + v;
    assert '\n' !in Decimal(n);
    assert HeaderLine(n) + rest == line + "\r\n" + rest;
    assert line[|line| - 1] == Decimal(n)[|Decimal(n)| - 1];
    TrimEolDigits(line);
    HeaderStep(line, rest, length);
    CutPrefixConcat(LENGTH, v);
    TrimSpaceDecimal(n);
    AtoiDecimal(n);
  }

  lemma {:induction false} OthersSkipped(hs: seq<string>, rest: string, length: int)
    requires forall i :: 0 <= i < |hs| ==> OtherHeader(hs[i])
    ensures ReadHeader(Headers(hs) + rest, length) == ReadHeader(rest, length)
  {
    if hs == [] {
      assert Headers(hs) + rest == rest;
    } else {
      var more := Headers(hs[1..]) + rest;
      assert Headers(hs) + rest == hs[0] + "\r\n" + more;
      assert OtherHeader(hs[0]);
      HeaderStep(hs[0], more, length);
      OthersSkipped(hs[1..], rest, length);
    }
  }

  lemma RegroupAll(a: string, b: string, c: string, d: string, e: string, rest: string)
    ensures (a + (b + (c + (d + e)))) + rest == a + (b + (c + (d + (e + rest))))
  {
    Regroup(d, e, rest);
    Regroup(c, d + e, rest);
    Regroup(b, c + (d + e), rest);
    Regroup(a, b + (c + (d + e)), rest);
  }

  lemma BlankEnds(rest: string, length: int)
    ensures ReadHeader("\r\n" + rest, length) == Got(length, rest)
  {
    assert "\r\n" + rest == "" + "\r\n" + rest;
    HeaderStep("", rest, length);
  }

  lemma FrameHeaderReads(before: seq<string>, after: seq<string>, n: nat, rest: string)
    requires n <= MAX_INT
    requires forall i :: 0 <= i < |before| ==> OtherHeader(before[i])
    requires forall i :: 0 <= i < |after| ==> OtherHeader(after[i])
    ensures ReadHeader(Headers(before) + (HeaderLine(n) + (Headers(after) + ("\r\n" + rest))), -1) == Got(n, rest)
  {
    var s2 := Headers(after) + ("\r\n" + rest);
    OthersSkipped(before, HeaderLine(n) + s2, -1);
    LengthStep(n, s2, -1);
    OthersSkipped(after, "\r\n" + rest, n);
    BlankEnds(rest, n);
  }

  lemma BodyReads(s: string, n: nat, rest: string)
    requires ReadHeader(s, -1) == Got(n, rest) && n <= |rest|
    ensures ReadFrame(s) == Got(rest[..n], rest[n..])
  {
  }

  /** A header without a length is an error. */
  lemma BadHeaderFails(before: seq<string>, rest: string)
    requires forall i :: 0 <= i < |before| ==> OtherHeader(before[i])
    ensures ReadFrame(Headers(before) + ("\r\n" + rest)) == Fail(MissingLength)
  {
    OthersSkipped(before, "\r\n" + rest, -1);
    BlankEnds(rest, -1);
  }

  /** strconv.Atoi on signed decimals, and on anything else. */
  lemma AtoiReads(n: nat)
    ensures Atoi(Decimal(n)) == if n <= MAX_INT then Some(n) else None
    ensures Atoi("+" + Decimal(n)) == if n <= MAX_INT then Some(n) else None
    ensures Atoi("-" + Decimal(n)) == if n <= MAX_INT + 1 then Some(-(n as int)) else None
  {
    DecimalRoundTrip(n);
    AtoiDigits(Decimal(n));
    AtoiPlus(Decimal(n));
    AtoiMinus(Decimal(n));
  }

  predicate AllDigits(d: string) { d != "" && forall i :: 0 <= i < |d| ==> IsDigit(d[i]) }

  lemma AtoiDigits(d: string)
    requires AllDigits(d)
    ensures Atoi(d) == if DecimalValue(d) <= MAX_INT then Some(DecimalValue(d)) else None
  {
    assert IsDigit(d[0]) && DigitRun(d) == |d|;
  }

  lemma AtoiPlus(d: string)
    requires AllDigits(d)
    ensures Atoi(['+'] + d) == if DecimalValue(d) <= MAX_INT then Some(DecimalValue(d)) else None
  {
    var s := ['+'] + d;
    assert s[0] == '+' && s[1..] == d && DigitRun(d) == |d|;
  }

  lemma AtoiMinus(d: string)
    requires AllDigits(d)
    ensures Atoi(['-'] + d) == if DecimalValue(d) <= MAX_INT + 1 then Some(-(DecimalValue(d) as int)) else None
  {
    var s := ['-'] + d;
    assert s[0] == '-' && s[1..] == d && DigitRun(d) == |d|;
  }

  lemma AtoiRefuses(s: string, i: nat)
    requires || s == "" || s == "-" || s == "+"
             || (i < |s| && !IsDigit(s[i]) && (i == 0 ==> s[0] != '-' && s[0] != '+'))
    ensures Atoi(s) == None
  {
    if 1 <= i < |s| && (s[0] == '-' || s[0] == '+') { assert s[1..][i - 1] == s[i]; }
  }

  /** Any well-formed frame, whatever other headers it carries, reads back as its body and
      leaves exactly what follows it. */
  lemma FrameRoundTrip(before: seq<string>, body: string, after: seq<string>, rest: string)
    requires |body| <= MAX_INT
    requires forall i :: 0 <= i < |before| ==> OtherHeader(before[i])
    requires forall i :: 0 <= i < |after| ==> OtherHeader(after[i])
    ensures ReadFrame(FrameWith(before, body, after) + rest) == Got(body, rest)
  {
    RegroupAll(Headers(before), HeaderLine(|body|), Headers(after), "\r\n", body, rest);
    var s := FrameWith(before, body, after) + rest;
    FrameHeaderReads(before, after, |body|, body + rest);
    BodyReads(s, |body|, body + rest);
    assert (body + rest)[..|body|] == body && (body + rest)[|body|..] == rest;
  }

  datatype Sent = Sent(before: seq<string>, body: string, after: seq<string>)

  ghost predicate Sendable(m: Sent)
  {
    && |m.body| <= MAX_INT
    && (forall i :: 0 <= i < |m.before| ==> OtherHeader(m.before[i]))
    && (forall i :: 0 <= i < |m.after| ==> OtherHeader(m.after[i]))
  }

  /** A stretch of bytes that reads as one body, whatever follows it. */
  datatype Frame = Frame(text: string, body: string)

  ghost predicate Reads(f: Frame)
  {
    f.text != "" && forall rest :: ReadFrame(f.text + rest) == Got(f.body, rest)
  }

  function FrameOf(m: Sent): Frame { Frame(FrameWith(m.before, m.body, m.after), m.body) }

  lemma SentReads(m: Sent)
    requires Sendable(m)
    ensures Reads(FrameOf(m))
  {
    forall rest ensures ReadFrame(FrameOf(m).text + rest) == Got(m.body, rest) {
      FrameRoundTrip(m.before, m.body, m.after, rest);
    }
    FrameRoundTrip(m.before, m.body, m.after, "");
    FrameIsCutOff(FrameOf(m).text + "");
  }

  function FramesOf(ms: seq<Sent>): seq<Frame>
  {
    seq(|ms|, i requires 0 <= i < |ms| => FrameOf(ms[i]))
  }

  function Stream(fs: seq<Frame>): string
  {
    if fs == [] then "" else fs[0].text + Stream(fs[1..])
  }

  function Bodies(fs: seq<Frame>): seq<string>
  {
    if fs == [] then [] else [fs[0].body] + Bodies(fs[1..])
  }

  lemma {:induction false} FramesRead(fs: seq<Frame>)
    requires forall i :: 0 <= i < |fs| ==> Reads(fs[i])
    ensures ReadAll(Stream(fs)) == (Bodies(fs), "")
  {
    if fs == [] {
    } else {
      assert Reads(fs[0]);
      FramesRead(fs[1..]);
    }
  }

  /** The whole conversation: reading the concatenation of any frames gives exactly the
      bodies that were written, in order, and uses the stream up. */
  lemma StreamRoundTrip(ms: seq<Sent>)
    requires forall i :: 0 <= i < |ms| ==> Sendable(ms[i])
    ensures ReadAll(Stream(FramesOf(ms))) == (Bodies(FramesOf(ms)), "")
  {
    SentFramesRead(ms);
    FramesRead(FramesOf(ms));
  }

  lemma SentFramesRead(ms: seq<Sent>)
    requires forall i :: 0 <= i < |ms| ==> Sendable(ms[i])
    ensures forall i :: 0 <= i < |ms| ==> Reads(FramesOf(ms)[i])
  {
    forall i | 0 <= i < |ms| ensures Reads(FramesOf(ms)[i]) { SentReads(ms[i]); }
  }

  // ---- Cut-off streams ----

  /** What is read off a stream is read off every longer one, and the rest stays behind it. */
  lemma {:induction false} HeaderExtends(a: string, b: string, length: int)
    requires ReadHeader(a, length).Got?
    ensures ReadHeader(a + b, length) == Got(ReadHeader(a, length).value, ReadHeader(a, length).rest + b)
    decreases |a|
  {
    var i := Newline(a).value;
    NewlineConcat(a, b);
    assert (a + b)[..i + 1] == a[..i + 1] && (a + b)[i + 1..] == a[i + 1..] + b;
    var line := TrimEol(a[..i + 1]);
    if line == "" {
    } else {
      HeaderExtends(a[i + 1..], b, LengthAfter(line, length).value);
    }
  }

  lemma FrameExtends(a: string, b: string)
    requires ReadFrame(a).Got?
    ensures ReadFrame(a + b) == Got(ReadFrame(a).value, ReadFrame(a).rest + b)
  {
    HeaderExtends(a, b, -1);
    var n, rest := ReadHeader(a, -1).value, ReadHeader(a, -1).rest;
    BodyReads(a, n, rest);
    BodyReads(a + b, n, rest + b);
    assert (rest + b)[..n] == rest[..n] && (rest + b)[n..] == rest[n..] + b;
  }

  /** So a frame cut off anywhere is an error, never a shorter message. */
  lemma CutFrame(s: string, k: nat)
    requires ReadFrame(s).Got? && k < |s| - |ReadFrame(s).rest|
    ensures ReadFrame(s[..k]).Fail?
  {
    assert s == s[..k] + s[k..];
    if ReadFrame(s[..k]).Got? { FrameExtends(s[..k], s[k..]); }
  }

  lemma CutReads(f: Frame, more: string, k: nat)
    requires Reads(f) && k < |f.text|
    ensures ReadFrame((f.text + more)[..k]).Fail?
  {
    assert ReadFrame(f.text + "") == Got(f.body, "") && f.text + "" == f.text;
    CutFrame(f.text, k);
    assert (f.text + more)[..k] == f.text[..k];
  }

  /** In particular any frame a peer may send, with any other headers. */
  lemma CutFrameFails(before: seq<string>, body: string, after: seq<string>, k: nat)
    requires Sendable(Sent(before, body, after)) && k < |FrameWith(before, body, after)|
    ensures ReadFrame(FrameWith(before, body, after)[..k]).Fail?
  {
    SentReads(Sent(before, body, after));
    CutReads(FrameOf(Sent(before, body, after)), "", k);
    assert FrameWith(before, body, after) + "" == FrameWith(before, body, after);
  }

  /** How many frames lie wholly inside the first k bytes. */
  function Whole(fs: seq<Frame>, k: nat): (j: nat)
    ensures j <= |fs|
  {
    if fs == [] || k < |fs[0].text| then 0 else 1 + Whole(fs[1..], k - |fs[0].text|)
  }

  lemma StreamTake(fs: seq<Frame>, j: nat)
    requires j < |fs|
    ensures Stream(fs[..j + 1]) == fs[0].text + Stream(fs[1..][..j])
    ensures Bodies(fs[..j + 1]) == [fs[0].body] + Bodies(fs[1..][..j])
  {
    assert fs[..j + 1][1..] == fs[1..][..j];
  }

  lemma {:induction false} WholeIsMost(fs: seq<Frame>, k: nat)
    ensures |Stream(fs[..Whole(fs, k)])| <= k
    ensures Whole(fs, k) < |fs| ==> k < |Stream(fs[..Whole(fs, k) + 1])|
  {
    if fs == [] {
    } else {
      StreamTake(fs, 0);
      if k >= |fs[0].text| {
        var j := Whole(fs[1..], k - |fs[0].text|);
        WholeIsMost(fs[1..], k - |fs[0].text|);
        StreamTake(fs, j);
        if j + 1 < |fs| { StreamTake(fs, j + 1); }
      }
    }
  }

  lemma {:induction false} CutFrames(fs: seq<Frame>, k: nat)
    requires (forall i :: 0 <= i < |fs| ==> Reads(fs[i])) && k <= |Stream(fs)|
    ensures ReadAll(Stream(fs)[..k]).0 == Bodies(fs[..Whole(fs, k)])
    ensures |ReadAll(Stream(fs)[..k]).1| == k - |Stream(fs[..Whole(fs, k)])|
  {
    if fs == [] {
      assert ReadFrame("").Fail?;
    } else {
      var n, more := |fs[0].text|, Stream(fs[1..]);
      assert Reads(fs[0]);
      if k < n {
        CutReads(fs[0], more, k);
        assert fs[..0] == [];
      } else {
        CutFrames(fs[1..], k - n);
        StreamTake(fs, Whole(fs[1..], k - n));
        ReadFirst(fs[0], more, k);
      }
    }
  }

  lemma ReadFirst(f: Frame, more: string, k: nat)
    requires Reads(f) && |f.text| <= k <= |f.text| + |more|
    ensures var rest := ReadAll(more[..k - |f.text|]);
      ReadAll((f.text + more)[..k]).0 == [f.body] + rest.0 && ReadAll((f.text + more)[..k]).1 == rest.1
  {
    assert (f.text + more)[..k] == f.text + more[..k - |f.text|];
  }

  /** A stream cut at k gives exactly the bodies of the frames wholly inside k, and leaves
      all the bytes after the last of them. */
  lemma CutStream(ms: seq<Sent>, k: nat)
    requires (forall i :: 0 <= i < |ms| ==> Sendable(ms[i])) && k <= |Stream(FramesOf(ms))|
    ensures var fs := FramesOf(ms); var j := Whole(fs, k);
      && |Stream(fs[..j])| <= k && (j < |fs| ==> k < |Stream(fs[..j + 1])|)
      && ReadAll(Stream(fs)[..k]).0 == Bodies(fs[..j])
      && |ReadAll(Stream(fs)[..k]).1| == k - |Stream(fs[..j])|
  {
    SentFramesRead(ms);
    WholeIsMost(FramesOf(ms), k);
    CutFrames(FramesOf(ms), k);
  }

  // ---- The reader object ----

  /** The buffered reader over the server's stdout. */
  class Reader {
    var rest: string

    constructor (stream: string)
      ensures rest == stream
    {
      rest := stream;
    }

    /** ReadString('\n') */
    method ReadLine() returns (line: Option<string>)
      modifies this
      ensures match Newline(old(rest))
              case None => line == None && rest == ""
              case Some(i) => line == Some(old(rest)[..i + 1]) && rest == old(rest)[i + 1..]
    {
      var i := Newline(rest);
      if i.None? {
        line, rest := None, "";
      } else {
        line, rest := Some(rest[..i.value + 1]), rest[i.value + 1..];
      }
    }

    /** readLSPFrame: the header loop, then exactly Content-Length bytes. */
    method Next() returns (r: Read<string>)
      modifies this
      ensures r == ReadFrame(old(rest))
      ensures r.Got? ==> rest == r.rest
    {
      var contentLength := -1;
      ghost var whole := rest;
      while true
        invariant ReadHeader(rest, contentLength) == ReadHeader(whole, -1)
        decreases |rest|
      {
        var line := ReadLine();
        if line.None? { return Fail(Eof); }
        var text := TrimEol(line.value);
        if text == "" { break; }
        var v := CutPrefix(text, LENGTH);
        if v.Some? {
          var n := Atoi(TrimSpace(v.value));
          if n.None? { return Fail(BadLength); }
          contentLength := n.value;
        }
      }
      if contentLength < 0 { return Fail(MissingLength); }
      if |rest| < contentLength { return Fail(ShortBody); }
      r := Got(rest[..contentLength], rest[contentLength..]);
      rest := rest[contentLength..];
    }
  }
}
