/** Line splitting of daemon output (internal/sandbox/daemon.go: cappedSplitter,
    dropCR, scanPipe), together with the buffered scanner that drives the split
    function over reads of any size. Bytes are chars. */
module LineSplitter {
  import opened Text

  const LINE_CAP: nat := 16 * 1024
  const SCAN_BUF: nat := 64 * 1024

  /** What the split function returns: how far to advance, the token, and whether the
      token is a slice of an over-long line. */
  datatype Cut = Cut(advance: nat, token: string, capped: bool)

  /** A forwarded LogLine: its data, and whether its reason is "line_cap". */
  datatype Line = Line(data: string, capped: bool)

  function DropCR(s: string): string
  {
    if |s| > 0 && s[|s| - 1] == '\r' then s[..|s| - 1] else s
  }

  function SplitAt(data: string, atEOF: bool, max: nat): Option<Cut>
  {
    var i := Newline(data);
    if atEOF && data == "" then None
    else if i.Some? && i.value <= max then Some(Cut(i.value + 1, DropCR(data[..i.value]), false))
    else if |data| >= max then Some(Cut(max, data[..max], true))
    else if atEOF then Some(Cut(|data|, DropCR(data), false))
    else None
  }

  // ---- What a token is, whatever the reads were ----

  /** What may stand between a token and the next one. */
  predicate Terminator(t: string, atEOF: bool)
  {
    t == "\n" || t == "\r\n" || (atEOF && (t == "" || t == "\r"))
  }

  predicate EndsInCR(s: string) { s != "" && s[|s| - 1] == '\r' }

  /** piece is the stretch of the stream that line stands for. A carriage return directly
      before the end of an uncapped line belongs to its terminator. */
  predicate Stands(piece: string, line: Line, atEOF: bool, max: nat)
  {
    && piece != "" && |line.data| <= max && '\n' !in line.data && line.data <= piece
    && (if line.capped then piece == line.data && |piece| == max
        else
          var end := piece[|line.data|..];
          Terminator(end, atEOF) && (EndsInCR(line.data) ==> end == "\r\n" || end == "\r"))
  }

  /** The split function's token stands for exactly the bytes it advances over; with
      no token the data is shorter than the cap and has no newline in it. */
  lemma SplitIsStretch(data: string, atEOF: bool, max: nat)
    requires max >= 1
    ensures var r := SplitAt(data, atEOF, max);
      if r.Some? then
        1 <= r.value.advance <= |data|
        && Stands(data[..r.value.advance], Line(r.value.token, r.value.capped), atEOF && r.value.advance == |data|, max)
      else
        |data| < max && '\n' !in data && (atEOF ==> data == "")
  {
    var i := Newline(data);
    if i.Some? && i.value <= max {
      assert data[..i.value + 1] == data[..i.value] + "\n";
      StretchOf(data[..i.value], "\n", atEOF && i.value + 1 == |data|, max);
    } else if |data| >= max {
      assert i.Some? ==> data[..max] == data[..i.value][..max];
    } else if atEOF && data != "" {
      assert data[..|data|] == data + "";
      StretchOf(data, "", atEOF, max);
    }
  }

  lemma StretchOf(line: string, end: string, atEOF: bool, max: nat)
    requires |line| <= max && '\n' !in line && line + end != ""
    requires end == "\n" || (atEOF && end == "")
    ensures Stands(line + end, Line(DropCR(line), false), atEOF, max)
  {
  }

  function Flat(pieces: seq<string>): string
  {
    if pieces == [] then "" else pieces[0] + Flat(pieces[1..])
  }

  /** The lines cut the stream: their stretches, in order, are the stream. Only the
      last may end at the end of input without a newline. */
  ghost predicate Cuts(stream: string, lines: seq<Line>, pieces: seq<string>, max: nat)
  {
    && Flat(pieces) == stream && |pieces| == |lines|
    && forall k :: 0 <= k < |lines| ==> Stands(pieces[k], lines[k], k == |lines| - 1, max)
  }

  // ---- The scanner ----

  /** How a reader hands out its bytes: how many the k-th read returns (kept within what
      fits and what is left, and at least one), and whether it reports the end of input
      together with the last bytes or with a read of its own. */
  datatype Reader = Reader(sizes: nat -> nat, early: nat -> bool)

  datatype Config = Config(bufLen: nat, max: nat, reader: Reader)

  /** bufio.Scanner over a fixed buffer: start bytes consumed, then the unread data; what
      the reader still holds; how often it was read; and whether it has ended. */
  datatype State = State(start: nat, data: string, source: string, calls: nat, eof: bool)

  function Clip(n: nat, most: nat): (r: nat)
    requires most >= 1
    ensures 1 <= r <= most
  {
    if n < 1 then 1 else if n > most then most else n
  }

  predicate Sound(c: Config, s: State)
  {
    1 <= c.max <= c.bufLen && s.start + |s.data| <= c.bufLen && (s.eof ==> s.source == "")
  }

  function Left(s: State): string { s.data + s.source }

  function Started(stream: string): State { State(0, "", stream, 0, false) }

  /** The buffer shifts its data to the front when it is full or half consumed. */
  function Shifted(bufLen: nat, s: State): nat
  {
    if s.start > 0 && (s.start + |s.data| == bufLen || s.start > bufLen / 2) then 0 else s.start
  }

  /** Makes room and reads once; there is room as long as the data does not fill the buffer. */
  function Filled(c: Config, s: State): (s': State)
    requires Sound(c, s) && !s.eof && |s.data| < c.bufLen
    ensures Sound(c, s') && Left(s') == Left(s)
    ensures |s'.source| < |s.source| || (s'.source == s.source && s'.eof)
  {
    var start := Shifted(c.bufLen, s);
    if s.source == "" then s.(start := start, calls := s.calls + 1, eof := true)
    else
      var room := c.bufLen - (start + |s.data|);
      var n := Clip(c.reader.sizes(s.calls), if |s.source| < room then |s.source| else room);
      assert s.data + s.source[..n] + s.source[n..] == s.data + s.source;
      State(start, s.data + s.source[..n], s.source[n..], s.calls + 1, s.source[n..] == "" && c.reader.early(s.calls))
  }

  /** One Scan: the next line and the state after it, or the end of input. */
  function Next(c: Config, s: State): (r: Option<(Line, State)>)
    requires Sound(c, s)
    ensures r.Some? ==> Sound(c, r.value.1) && |Left(r.value.1)| < |Left(s)|
    decreases |s.source|, if s.eof then 0 else 1
  {
    SplitIsStretch(s.data, s.eof, c.max);
    var cut := if s.data != "" || s.eof then SplitAt(s.data, s.eof, c.max) else None;
    if cut.Some? then
      var k := cut.value;
      Some((Line(k.token, k.capped), s.(start := s.start + k.advance, data := s.data[k.advance..])))
    else if s.eof then None
    else Next(c, Filled(c, s))
  }

  /** All the lines a scanner produces from a state on. */
  function Lines(c: Config, s: State): seq<Line>
    requires Sound(c, s)
    decreases |Left(s)|
  {
    match Next(c, s)
    case None => []
    case Some((line, s')) => [line] + Lines(c, s')
  }

  /** The next line stands for a nonempty stretch at the front of what is left; the end of
      input is reported only when nothing is left. */
  lemma {:induction false} NextIsStretch(c: Config, s: State)
    requires Sound(c, s)
    ensures match Next(c, s)
      case None => Left(s) == ""
      case Some((line, s')) => Stretches(Left(s), line, Left(s'), c.max)
    decreases |s.source|, if s.eof then 0 else 1
  {
    SplitIsStretch(s.data, s.eof, c.max);
    var cut := if s.data != "" || s.eof then SplitAt(s.data, s.eof, c.max) else None;
    if cut.Some? {
      DataStretches(s.data, s.source, s.eof, c.max);
    } else if !s.eof {
      NextIsStretch(c, Filled(c, s));
    }
  }

  /** line stands for what was left minus what is left now. */
  ghost predicate Stretches(left: string, line: Line, left': string, max: nat)
  {
    && |left'| < |left| && left' == left[|left| - |left'|..]
    && Stands(left[..|left| - |left'|], line, left' == "", max)
  }

  lemma DataStretches(data: string, rest: string, eof: bool, max: nat)
    requires max >= 1 && SplitAt(data, eof, max).Some? && (eof ==> rest == "")
    ensures var cut := SplitAt(data, eof, max).value;
      cut.advance <= |data| && Stretches(data + rest, Line(cut.token, cut.capped), data[cut.advance..] + rest, max)
  {
    SplitIsStretch(data, eof, max);
    var n := SplitAt(data, eof, max).value.advance;
    assert (data + rest)[..n] == data[..n] && (data + rest)[n..] == data[n..] + rest;
  }

  /** Whatever sizes the reads have, the lines cut the stream. */
  lemma {:induction false} LinesCut(c: Config, s: State) returns (pieces: seq<string>)
    requires Sound(c, s)
    ensures Cuts(Left(s), Lines(c, s), pieces, c.max)
    decreases |Left(s)|
  {
    NextIsStretch(c, s);
    match Next(c, s)
    case None => pieces := [];
    case Some((line, s')) =>
      var rest := LinesCut(c, s');
      pieces := [Left(s)[..|Left(s)| - |Left(s')|]] + rest;
      CutsCons(Left(s), line, Left(s'), Lines(c, s'), rest, c.max);
  }

  lemma CutsCons(left: string, line: Line, left': string, lines: seq<Line>, rest: seq<string>, max: nat)
    requires Stretches(left, line, left', max) && Cuts(left', lines, rest, max)
    ensures Cuts(left, [line] + lines, [left[..|left| - |left'|]] + rest, max)
  {
    var piece := left[..|left| - |left'|];
    var pieces := [piece] + rest;
    assert pieces[1..] == rest && left == piece + left';
    assert left' == "" <==> lines == [] by {
      if lines != [] { assert Stands(rest[0], lines[0], 0 == |lines| - 1, max); }
    }
    forall k | 0 <= k <= |lines| ensures Stands(pieces[k], ([line] + lines)[k], k == |lines|, max) {
      if k > 0 { assert Stands(rest[k - 1], lines[k - 1], k - 1 == |lines| - 1, max); }
    }
  }

  // ---- What is recovered from the lines ----

  /** What a consumer gets by gluing over-long lines back together. */
  function Glued(lines: seq<Line>): string
  {
    if lines == [] then ""
    else (lines[0].data + if lines[0].capped then "" else "\n") + Glued(lines[1..])
  }

  lemma NoneIn(a: string, b: string, c: char)
    requires c !in a + b
    ensures c !in a && c !in b
  {
  }

  /** A stream without carriage returns is recovered exactly, whatever the reads were,
      except that a missing final newline may be supplied. */
  lemma {:induction false} GluedIsStream(stream: string, lines: seq<Line>, pieces: seq<string>, max: nat)
    requires Cuts(stream, lines, pieces, max) && '\r' !in stream
    ensures Glued(lines) == stream
         || (Glued(lines) == stream + "\n" && stream != "" && stream[|stream| - 1] != '\n')
    decreases |lines|
  {
    if lines == [] {
    } else {
      var piece, rest := pieces[0], Flat(pieces[1..]);
      NoneIn(piece, rest, '\r');
      PieceGlue(piece, lines[0], |lines| == 1, max);
      if |lines| == 1 {
        assert pieces[1..] == [] && rest == "" && lines[1..] == [];
      } else {
        forall k | 0 <= k < |lines[1..]| ensures Stands(pieces[1..][k], lines[1..][k], k == |lines[1..]| - 1, max) {
          assert Stands(pieces[k + 1], lines[k + 1], k + 1 == |lines| - 1, max);
        }
        GluedIsStream(rest, lines[1..], pieces[1..], max);
        assert piece + (rest + "\n") == (piece + rest) + "\n";
      }
    }
  }

  lemma PieceGlue(piece: string, line: Line, last: bool, max: nat)
    requires Stands(piece, line, last, max) && '\r' !in piece
    ensures var g := line.data + if line.capped then "" else "\n";
      g == piece || (last && g == piece + "\n" && piece[|piece| - 1] != '\n')
  {
    var rest := piece[|line.data|..];
    assert piece == line.data + rest;
    assert '\r' !in rest && '\r' in "\r\n" && '\r' in "\r";
    if !line.capped && rest == "" {
      assert piece == line.data;
      assert piece[|piece| - 1] in line.data;
    }
  }

  // ---- When the reads can be told from the lines ----

  /** The lines of a stream read all at once. */
  function LinesOf(left: string, max: nat): seq<Line>
    requires max >= 1
    decreases |left|
  {
    SplitIsStretch(left, true, max);
    var cut := SplitAt(left, true, max);
    if cut.None? then [] else [Line(cut.value.token, cut.value.capped)] + LinesOf(left[cut.value.advance..], max)
  }

  /** The newline comes right after the cap: whether the split function sees it decides. */
  predicate Ambiguous(left: string, max: nat) { Newline(left) == Some(max) }

  /** No line of the stream is ever left in that position. */
  predicate Decided(left: string, max: nat)
    requires max >= 1
    decreases |left|
  {
    SplitIsStretch(left, true, max);
    var cut := SplitAt(left, true, max);
    cut.None? || (!Ambiguous(left, max) && Decided(left[cut.value.advance..], max))
  }

  /** Away from that position a token found in part of the input is the token of the whole. */
  lemma PartDecides(data: string, rest: string, atEOF: bool, max: nat)
    requires max >= 1 && (atEOF ==> rest == "") && !Ambiguous(data + rest, max)
    requires SplitAt(data, atEOF, max).Some?
    ensures SplitAt(data + rest, true, max) == SplitAt(data, atEOF, max)
  {
    NewlineConcat(data, rest);
    var left, i := data + rest, Newline(data);
    if i.Some? { assert left[..i.value] == data[..i.value]; }
    if |data| >= max { assert left[..max] == data[..max]; }
    if atEOF { assert left == data; }
  }

  lemma {:induction false} NextDecided(c: Config, s: State)
    requires Sound(c, s) && !Ambiguous(Left(s), c.max)
    ensures match Next(c, s)
      case None => Left(s) == ""
      case Some((line, s')) =>
        var cut := SplitAt(Left(s), true, c.max);
        cut.Some? && line == Line(cut.value.token, cut.value.capped)
        && cut.value.advance <= |Left(s)| && Left(s') == Left(s)[cut.value.advance..]
    decreases |s.source|, if s.eof then 0 else 1
  {
    SplitIsStretch(s.data, s.eof, c.max);
    var cut := if s.data != "" || s.eof then SplitAt(s.data, s.eof, c.max) else None;
    if cut.Some? {
      PartDecides(s.data, s.source, s.eof, c.max);
      assert Left(s)[cut.value.advance..] == s.data[cut.value.advance..] + s.source;
    } else if !s.eof {
      NextDecided(c, Filled(c, s));
    }
  }

  /** A decided stream has the same lines for every reader: those of one read. */
  lemma {:induction false} DecidedLines(c: Config, s: State)
    requires Sound(c, s) && Decided(Left(s), c.max)
    ensures Lines(c, s) == LinesOf(Left(s), c.max)
    decreases |Left(s)|
  {
    SplitIsStretch(Left(s), true, c.max);
    NextIsStretch(c, s);
    if Left(s) == "" {
    } else {
      NextDecided(c, s);
      DecidedLines(c, Next(c, s).value.1);
    }
  }

  /** A reader of single bytes, and one that once reads two. */
  const SLOW := Reader(k => 1, k => false)

  function Peeking(at: nat): Reader { Reader(k => if k == at then 2 else 1, k => false) }

  /** Where the last byte before the deciding newline is. */
  function DecidingOffset(left: string, max: nat): nat
    requires max >= 1 && !Decided(left, max)
    decreases |left|
  {
    SplitIsStretch(left, true, max);
    var n := SplitAt(left, true, max).value.advance;
    if Ambiguous(left, max) then max - 1 else n + DecidingOffset(left[n..], max)
  }

  /** The scanner waits: its data has no newline and is short of the cap. */
  ghost predicate Waits(s: State, max: nat)
  {
    !s.eof && |s.data| < max && Newline(s.data).None?
  }

  lemma WaitingFills(c: Config, s: State)
    requires Sound(c, s) && Waits(s, c.max)
    ensures Lines(c, s) == Lines(c, Filled(c, s))
  {
    assert Next(c, s) == Next(c, Filled(c, s));
    assert Left(s) == Left(Filled(c, s));
  }

  /** With a buffer of more than twice the cap a waiting scanner has room for two bytes,
      so a read gives what its reader says. */
  lemma ReadsAsAsked(c: Config, s: State, n: nat)
    requires Sound(c, s) && Waits(s, c.max) && 2 * c.max + 2 <= c.bufLen
    requires c.reader.sizes(s.calls) == n && 1 <= n <= 2 && n <= |s.source| && !c.reader.early(s.calls)
    ensures Filled(c, s)
         == State(Shifted(c.bufLen, s), s.data + s.source[..n], s.source[n..], s.calls + 1, false)
  {
  }

  /** A scanner waiting on an undecided stream has more to read. */
  lemma MoreToRead(s: State, max: nat)
    requires max >= 1 && Waits(s, max) && !Decided(Left(s), max)
    ensures s.source != ""
  {
    ShortIsDecided(s.data, max);
    assert s.source == "" ==> Left(s) == s.data;
  }

  lemma ShortIsDecided(left: string, max: nat)
    requires max >= 1 && |left| < max && Newline(left).None?
    ensures Decided(left, max)
  {
    if left != "" {
      assert SplitAt(left, true, max).value.advance == |left| && left[|left|..] == "";
      assert Decided("", max);
    }
  }

  lemma AmbiguousOffset(left: string, k: nat, max: nat)
    requires max >= 1 && DecidedAt(left, k, max)
    ensures Ambiguous(left, max) ==> k == max - 1
  {
  }

  /** Reading up to the deciding byte: the position is the ambiguous one. */
  lemma OffsetHere(s: State, max: nat)
    requires max >= 1 && Waits(s, max) && DecidedAt(Left(s), |s.data|, max)
    ensures Ambiguous(Left(s), max) && |s.data| == max - 1
  {
    MoreToRead(s, max);
    SplitIsStretch(Left(s), true, max);
    NewlineConcat(s.data, s.source);
  }

  ghost function Slow(bufLen: nat, max: nat): Config { Config(bufLen, max, SLOW) }

  ghost function Peek(bufLen: nat, max: nat, at: nat): Config { Config(bufLen, max, Peeking(at)) }

  /** A waiting scanner on an undecided rest; at is the read that decides. */
  ghost predicate Undecided(bufLen: nat, max: nat, s: State, at: nat)
  {
    && max >= 1 && 2 * max + 2 <= bufLen && s.start + |s.data| <= bufLen && Waits(s, max)
    && at >= s.calls && DecidedAt(Left(s), at - s.calls + |s.data|, max)
  }

  /** The stream is undecided, and k is its deciding offset. */
  ghost predicate DecidedAt(left: string, k: nat, max: nat)
    requires max >= 1
  {
    !Decided(left, max) && DecidingOffset(left, max) == k
  }

  /** The first line of a waiting scanner whose next read asks for n bytes. */
  lemma ReadDecides(c: Config, s: State, n: nat)
    requires Sound(c, s) && Waits(s, c.max) && 2 * c.max + 2 <= c.bufLen
    requires c.reader.sizes(s.calls) == n && 1 <= n <= 2 && n <= |s.source| && !c.reader.early(s.calls)
    requires SplitAt(s.data + s.source[..n], false, c.max).Some?
    ensures Lines(c, s) != [] && Lines(c, s)[0].capped == SplitAt(s.data + s.source[..n], false, c.max).value.capped
  {
    ReadsAsAsked(c, s, n);
    WaitingFills(c, s);
    FirstLine(c, Filled(c, s));
  }

  /** At the deciding read one reader sees the newline and the other does not. */
  lemma DecidingRead(bufLen: nat, max: nat, s: State, at: nat)
    requires Undecided(bufLen, max, s, at) && at == s.calls
    ensures Lines(Slow(bufLen, max), s) != Lines(Peek(bufLen, max, at), s)
  {
    OffsetHere(s, max);
    NewlineConcat(s.data, s.source);
    DecidingData(s.data, s.source);
    ReadDecides(Slow(bufLen, max), s, 1);
    ReadDecides(Peek(bufLen, max, at), s, 2);
  }

  /** A token in the buffer is the next line. */
  lemma FirstLine(c: Config, s: State)
    requires Sound(c, s) && s.data != "" && SplitAt(s.data, s.eof, c.max).Some?
    ensures var cut := SplitAt(s.data, s.eof, c.max).value;
      && cut.advance <= |s.data|
      && var s' := s.(start := s.start + cut.advance, data := s.data[cut.advance..]);
         Sound(c, s') && Lines(c, s) == [Line(cut.token, cut.capped)] + Lines(c, s')
  {
    FirstNext(c, s);
  }

  lemma FirstNext(c: Config, s: State)
    requires Sound(c, s) && s.data != "" && SplitAt(s.data, s.eof, c.max).Some?
    ensures var cut := SplitAt(s.data, s.eof, c.max).value;
      && cut.advance <= |s.data|
      && var s' := s.(start := s.start + cut.advance, data := s.data[cut.advance..]);
         Sound(c, s') && Next(c, s) == Some((Line(cut.token, cut.capped), s'))
  {
    SplitIsStretch(s.data, s.eof, c.max);
  }

  lemma DecidingData(data: string, source: string)
    requires Newline(data).None? && Newline(source) == Some(1)
    ensures |source| >= 2
    ensures Newline(data + source[..1]).None? && Newline(data + source[..2]) == Some(|data| + 1)
  {
    NewlineConcat(data, source[..1]);
    NewlineConcat(data, source[..2]);
    assert source[..1] == [source[0]] && source[..2] == [source[0], '\n'];
    assert Newline([source[0]]).None? && Newline([source[0], '\n']) == Some(1) by {
      assert [source[0], '\n'][1..] == "\n" && [source[0]][1..] == "";
    }
  }

  /** Before it both readers hand over the same byte. */
  lemma SameByte(bufLen: nat, max: nat, s: State, at: nat) returns (x: char, s1: State)
    requires Undecided(bufLen, max, s, at) && at != s.calls
    ensures s.source == [x] + s1.source && s1.data == s.data + [x] && s1.calls == s.calls + 1 && !s1.eof
    ensures Sound(Slow(bufLen, max), s1) && Sound(Peek(bufLen, max, at), s1) && Left(s1) == Left(s)
    ensures Lines(Slow(bufLen, max), s) == Lines(Slow(bufLen, max), s1)
    ensures Lines(Peek(bufLen, max, at), s) == Lines(Peek(bufLen, max, at), s1)
  {
    MoreToRead(s, max);
    OneByte(Slow(bufLen, max), s);
    OneByte(Peek(bufLen, max, at), s);
    x, s1 := s.source[0], ByteOn(bufLen, s);
  }

  /** The state one byte on. */
  function ByteOn(bufLen: nat, s: State): State
    requires s.source != ""
  {
    State(Shifted(bufLen, s), s.data + [s.source[0]], s.source[1..], s.calls + 1, false)
  }

  lemma OneByte(c: Config, s: State)
    requires Sound(c, s) && Waits(s, c.max) && 2 * c.max + 2 <= c.bufLen && s.source != ""
    requires c.reader.sizes(s.calls) == 1 && !c.reader.early(s.calls)
    ensures s.source == [s.source[0]] + s.source[1..]
    ensures var s1 := ByteOn(c.bufLen, s); Sound(c, s1) && Left(s1) == Left(s) && Lines(c, s) == Lines(c, s1)
  {
    ReadsAsAsked(c, s, 1);
    assert s.source[..1] == [s.source[0]];
    WaitingFills(c, s);
  }

  /** Two readers of an undecided rest end up with different lines. */
  lemma {:induction false} ReadersDiffer(bufLen: nat, max: nat, s: State, at: nat)
    requires Undecided(bufLen, max, s, at)
    ensures Lines(Slow(bufLen, max), s) != Lines(Peek(bufLen, max, at), s)
    decreases |s.source|
  {
    if at == s.calls {
      DecidingRead(bufLen, max, s, at);
    } else {
      var x, s1 := SameByte(bufLen, max, s, at);
      var cut := SplitAt(s1.data, false, max);
      if cut.None? {
        SplitIsStretch(s1.data, false, max);
        ReadersDiffer(bufLen, max, s1, at);
      } else {
        var s2 := TokenTaken(bufLen, max, s, x, s1, at);
        ReadersDiffer(bufLen, max, s2, at);
        SameToken(Slow(bufLen, max), Peek(bufLen, max, at), s1, s2);
      }
    }
  }

  /** The state after the token in the buffer. */
  ghost predicate AfterToken(s1: State, s2: State, max: nat)
  {
    && s1.data != "" && SplitAt(s1.data, s1.eof, max).Some?
    && var n := SplitAt(s1.data, s1.eof, max).value.advance;
       n <= |s1.data| && s2 == s1.(start := s1.start + n, data := s1.data[n..])
  }

  /** A token found before the deciding read leaves an undecided rest. */
  lemma TokenTaken(bufLen: nat, max: nat, s: State, x: char, s1: State, at: nat) returns (s2: State)
    requires Undecided(bufLen, max, s, at) && at != s.calls && s.source == [x] + s1.source
    requires s1.data == s.data + [x] && s1.calls == s.calls + 1 && !s1.eof
    requires s1.start + |s1.data| <= bufLen && SplitAt(s1.data, false, max).Some?
    ensures AfterToken(s1, s2, max) && Undecided(bufLen, max, s2, at) && s2.source == s1.source
  {
    s2 := s1.(start := s1.start + |s1.data|, data := "");
    var k := at - s.calls + |s.data|;
    AmbiguousOffset(Left(s), k, max);
    TokenIsWhole(Left(s), s.data, x, s1.data, s1.source, max);
    RestUndecided(Left(s), s1.data, s1.source, k, max);
    Emptied(s1, s2);
  }

  lemma Emptied(s1: State, s2: State)
    requires s2.data == "" && s2.source == s1.source
    ensures Left(s2) == s1.source && s1.data[|s1.data|..] == ""
  {
  }

  /** The token of all that is left takes exactly the data, away from the ambiguous position. */
  ghost predicate WholeToken(left: string, data: string, rest: string, max: nat)
  {
    && |data| <= |left| && rest == left[|data|..] && !Ambiguous(left, max)
    && SplitAt(left, true, max).Some? && SplitAt(left, true, max).value.advance == |data|
  }

  lemma Regroup(a: string, b: string, c: string)
    ensures a + (b + c) == (a + b) + c && ((a + b) + c)[|a + b|..] == c
  {
  }

  lemma NewlineSnoc(d: string, x: char)
    requires Newline(d).None?
    ensures Newline(d + [x]) == if x == '\n' then Some(|d|) else None
  {
    NewlineConcat(d, [x]);
    assert [x][1..] == "";
  }

  lemma TokenIsWhole(left: string, d: string, x: char, data: string, rest: string, max: nat)
    requires max >= 1 && |d| < max && Newline(d).None? && data == d + [x] && left == d + ([x] + rest)
    requires SplitAt(data, false, max).Some? && (Ambiguous(left, max) ==> |d| + 1 < max)
    ensures SplitAt(data, false, max).value.advance == |data| && WholeToken(left, data, rest, max)
  {
    Regroup(d, [x], rest);
    NewlineSnoc(d, x);
    NewlineConcat(data, rest);
    PartDecides(data, rest, false, max);
  }

  lemma RestUndecided(left: string, data: string, rest: string, k: nat, max: nat)
    requires max >= 1 && DecidedAt(left, k, max) && WholeToken(left, data, rest, max)
    ensures k >= |data| && DecidedAt(rest, k - |data|, max)
  {
  }

  /** It is the same line for both, so the lines differ if they differ after it. */
  lemma SameToken(c: Config, d: Config, s1: State, s2: State)
    requires c.max == d.max && Sound(c, s1) && Sound(d, s1) && AfterToken(s1, s2, c.max)
    ensures Sound(c, s2) && Sound(d, s2) && (Lines(c, s2) != Lines(d, s2) ==> Lines(c, s1) != Lines(d, s1))
  {
    var line := TokenLine(c, s1, s2);
    var line' := TokenLine(d, s1, s2);
    TailsDiffer(line, Lines(c, s2), Lines(d, s2));
  }

  lemma TokenLine(c: Config, s1: State, s2: State) returns (line: Line)
    requires Sound(c, s1) && AfterToken(s1, s2, c.max)
    ensures Sound(c, s2) && Lines(c, s1) == [line] + Lines(c, s2)
    ensures var cut := SplitAt(s1.data, s1.eof, c.max).value; line == Line(cut.token, cut.capped)
  {
    var cut := SplitAt(s1.data, s1.eof, c.max).value;
    line := Line(cut.token, cut.capped);
    FirstLine(c, s1);
  }

  lemma TailsDiffer(line: Line, a: seq<Line>, b: seq<Line>)
    ensures a != b ==> [line] + a != [line] + b
  {
    assert ([line] + a)[1..] == a && ([line] + b)[1..] == b;
  }

  /** A newline-terminated line whose length is a positive multiple of the cap. */
  ghost predicate HasFullLine(stream: string, max: nat)
    requires max >= 1
  {
    var l := Split(stream, '\n');
    exists i :: 0 <= i < |l| - 1 && FullLength(l[i], max)
  }

  predicate FullLength(line: string, max: nat)
    requires max >= 1
  {
    Multiple(|line|, max)
  }

  /** max, 2 max, 3 max, ... */
  predicate Multiple(n: nat, max: nat)
    requires max >= 1
  {
    n == max || (n > max && Multiple(n - max, max))
  }

  lemma {:induction false} MultipleIff(n: nat, max: nat)
    requires max >= 1
    ensures Multiple(n, max) <==> n > 0 && n % max == 0
  {
    if n <= max {
    } else {
      MultipleIff(n - max, max);
      ModStep(n, max);
    }
  }

  lemma ModStep(n: nat, max: nat)
    requires n > max >= 1
    ensures (n - max) % max == n % max
  {
    var a, b, c, d := n / max, n % max, (n - max) / max, (n - max) % max;
    assert n == max * a + b && n - max == max * c + d;
    var k := a - c - 1;
    assert max * k == d - b by { assert max * k == max * a - max * c - max; }
    assert (k >= 1 ==> max * k >= max) && (k <= -1 ==> max * k + max <= 0);
  }

  lemma {:induction false} SplitHead(s: string)
    ensures match Newline(s)
      case None => Split(s, '\n') == [s]
      case Some(i) => Split(s, '\n') == [s[..i]] + Split(s[i + 1..], '\n')
  {
    match Newline(s)
    case None => SplitOneLine(s, '\n');
    case Some(i) =>
      assert s == s[..i] + ['\n'] + s[i + 1..];
      SplitFirstLine(s[..i], s[i + 1..], '\n');
  }

  lemma FullLineCons(first: string, rest: string, s: string, max: nat)
    requires max >= 1 && Split(s, '\n') == [first] + Split(rest, '\n')
    ensures HasFullLine(s, max) <==> FullLength(first, max) || HasFullLine(rest, max)
  {
    var l, m := Split(s, '\n'), Split(rest, '\n');
    if HasFullLine(rest, max) {
      var i :| 0 <= i < |m| - 1 && FullLength(m[i], max);
      assert l[i + 1] == m[i];
    }
    if FullLength(first, max) { assert l[0] == first; }
    if HasFullLine(s, max) {
      var i :| 0 <= i < |l| - 1 && FullLength(l[i], max);
      if i > 0 { assert m[i - 1] == l[i]; }
    }
  }

  /** A stream is decided if and only if it has no such line. */
  lemma {:induction false} DecidedIff(stream: string, max: nat)
    requires max >= 1
    ensures Decided(stream, max) <==> !HasFullLine(stream, max)
    decreases |stream|
  {
    SplitIsStretch(stream, true, max);
    var cut := SplitAt(stream, true, max);
    if cut.None? {
      SplitHead(stream);
    } else {
      DecidedIff(stream[cut.value.advance..], max);
      OneCutDecides(stream, max);
    }
  }

  lemma OneCutDecides(stream: string, max: nat)
    requires max >= 1 && SplitAt(stream, true, max).Some?
    ensures SplitAt(stream, true, max).value.advance <= |stream|
    ensures HasFullLine(stream, max)
       <==> Ambiguous(stream, max) || HasFullLine(stream[SplitAt(stream, true, max).value.advance..], max)
  {
    SplitIsStretch(stream, true, max);
    var n := SplitAt(stream, true, max).value.advance;
    match Newline(stream)
    case None =>
      SplitHead(stream);
      assert stream == stream[..n] + stream[n..];
      NewlineConcat(stream[..n], stream[n..]);
      SplitHead(stream[n..]);
    case Some(i) =>
      if i <= max { ShortLine(stream, i, max); } else { LongLine(stream, i, max); }
  }

  /** A line within the cap is whole, and full only when it has exactly the cap. */
  lemma ShortLine(stream: string, i: nat, max: nat)
    requires 1 <= max && i <= max && Newline(stream) == Some(i)
    ensures HasFullLine(stream, max) <==> i == max || HasFullLine(stream[i + 1..], max)
  {
    SplitHead(stream);
    FullLineCons(stream[..i], stream[i + 1..], stream, max);
  }

  /** Cutting the cap off an over-long line takes the cap off its length. */
  lemma LongLine(stream: string, i: nat, max: nat)
    requires 1 <= max < i && Newline(stream) == Some(i)
    ensures HasFullLine(stream[max..], max) <==> HasFullLine(stream, max)
  {
    CutLine(stream, i, max);
    SplitHead(stream);
    SplitHead(stream[max..]);
    FullLineCons(stream[..i], stream[i + 1..], stream, max);
    FullLineCons(stream[max..i], stream[i + 1..], stream[max..], max);
  }

  lemma CutLine(stream: string, i: nat, max: nat)
    requires 1 <= max < i && Newline(stream) == Some(i)
    ensures Newline(stream[max..]) == Some(i - max)
    ensures stream[max..][..i - max] == stream[max..i] && stream[max..][i - max + 1..] == stream[i + 1..]
  {
    assert stream == stream[..max] + stream[max..];
    NewlineConcat(stream[..max], stream[max..]);
    assert stream[..max] == stream[..i][..max];
  }

  ghost function ScanOf(stream: string, reader: Reader): seq<Line>
  {
    Lines(Config(SCAN_BUF, LINE_CAP, reader), Started(stream))
  }

  /** Exactly when the lines do not depend on the reads: when no newline-terminated line
      has a length that is a positive multiple of the cap. */
  lemma LinesIndependentIff(stream: string)
    ensures (forall r1, r2 :: ScanOf(stream, r1) == ScanOf(stream, r2)) <==> !HasFullLine(stream, LINE_CAP)
    ensures !HasFullLine(stream, LINE_CAP) ==> forall r :: ScanOf(stream, r) == LinesOf(stream, LINE_CAP)
  {
    DecidedIff(stream, LINE_CAP);
    var s := Started(stream);
    assert Left(s) == stream;
    if HasFullLine(stream, LINE_CAP) {
      var at := DecidingOffset(stream, LINE_CAP);
      ReadersDiffer(SCAN_BUF, LINE_CAP, s, at);
      assert ScanOf(stream, SLOW) != ScanOf(stream, Peeking(at));
    } else {
      forall r ensures ScanOf(stream, r) == LinesOf(stream, LINE_CAP) {
        DecidedLines(Config(SCAN_BUF, LINE_CAP, r), s);
      }
    }
  }

  // ---- The objects ----

  class CappedSplitter {
    const max: nat
    var capped: bool

    constructor (max: nat)
      ensures this.max == max
    {
      this.max := max;
      capped := false;
    }

    method Split(data: string, atEOF: bool) returns (advance: nat, token: Option<string>)
      modifies this
      ensures var r := SplitAt(data, atEOF, max);
        if r.None? then advance == 0 && token.None? && capped == old(capped)
        else advance == r.value.advance && token == Some(r.value.token) && capped == r.value.capped
    {
      if atEOF && |data| == 0 { return 0, None; }
      var i := Newline(data);
      if i.Some? && i.value <= max {
        capped := false;
        return i.value + 1, Some(DropCR(data[..i.value]));
      }
      if |data| >= max {
        capped := true;
        return max, Some(data[..max]);
      }
      if atEOF {
        capped := false;
        return |data|, Some(DropCR(data));
      }
      return 0, None;
    }
  }

  datatype Scanned = Token(text: string) | EndOfInput | TooLong

  class Scanner {
    const bufLen: nat
    const reader: Reader
    const splitter: CappedSplitter
    var start: nat
    var data: string
    var source: string
    var calls: nat
    var eof: bool

    ghost function Abs(): State reads this { State(start, data, source, calls, eof) }

    ghost function Conf(): Config { Config(bufLen, splitter.max, reader) }

    constructor (bufLen: nat, reader: Reader, splitter: CappedSplitter, source: string)
      ensures Abs() == Started(source) && Conf() == Config(bufLen, splitter.max, reader)
      ensures this.splitter == splitter
    {
      this.bufLen, this.reader, this.splitter := bufLen, reader, splitter;
      this.start, this.data, this.source, this.calls, this.eof := 0, "", source, 0, false;
    }

    /** Makes room and reads once; false would be a token longer than the buffer. */
    method Fill() returns (ok: bool)
      requires Sound(Conf(), Abs()) && !eof && |data| < bufLen
      modifies this`start, this`data, this`source, this`calls, this`eof
      ensures ok && Abs() == Filled(Conf(), old(Abs()))
    {
      var end := start + |data|;
      if start > 0 && (end == bufLen || start > bufLen / 2) {
        end := |data|;
        start := 0;
      }
      if end == bufLen { return false; }
      if source == "" {
        eof := true;
      } else {
        var room := bufLen - end;
        var n := Clip(reader.sizes(calls), if |source| < room then |source| else room);
        data, source := data + source[..n], source[n..];
        if source == "" && reader.early(calls) { eof := true; }
      }
      calls := calls + 1;
      ok := true;
    }

    /** One Scan is the specified next line; the buffer is never too short. */
    method Scan() returns (r: Scanned)
      requires Sound(Conf(), Abs())
      modifies this`start, this`data, this`source, this`calls, this`eof, splitter
      ensures Sound(Conf(), Abs()) && !r.TooLong?
      ensures match Next(Conf(), old(Abs()))
        case None => r.EndOfInput?
        case Some((line, s')) => r == Token(line.data) && splitter.capped == line.capped && Abs() == s'
    {
      while true
        invariant Sound(Conf(), Abs()) && Next(Conf(), Abs()) == Next(Conf(), old(Abs()))
        decreases |source|, if eof then 0 else 1
      {
        SplitIsStretch(data, eof, splitter.max);
        if |data| > 0 || eof {
          var advance, token := splitter.Split(data, eof);
          if token.Some? {
            start := start + advance;
            data := data[advance..];
            return Token(token.value);
          }
        }
        if eof { return EndOfInput; }
        var ok := Fill();
        if !ok { return TooLong; }
      }
    }
  }

  /** The lines so far, and those still to come from s, are the lines from s0. */
  ghost predicate Produced(lines: seq<Line>, c: Config, s: State, s0: State)
  {
    Sound(c, s) && Sound(c, s0) && lines + Lines(c, s) == Lines(c, s0)
  }

  lemma ProduceOne(lines: seq<Line>, line: Line, c: Config, s: State, s': State, s0: State)
    requires Produced(lines, c, s, s0) && Next(c, s) == Some((line, s'))
    ensures Produced(lines + [line], c, s', s0)
  {
    RegroupLines(lines, [line], Lines(c, s'));
  }

  lemma RegroupLines(a: seq<Line>, b: seq<Line>, c: seq<Line>)
    ensures a + (b + c) == (a + b) + c
  {
  }

  predicate WithinCap(line: Line)
  {
    |line.data| <= LINE_CAP && (line.capped ==> |line.data| == LINE_CAP)
  }

  /** scanPipe's loop, before the non-blocking send: whatever sizes the reads have, the
      loop ends with the specified lines, so they cut the stream and none is longer than
      the cap; and they are those of one read unless some line has a full length. */
  method ScanPipe(stream: string, reader: Reader) returns (lines: seq<Line>)
    ensures lines == ScanOf(stream, reader)
    ensures exists pieces :: Cuts(stream, lines, pieces, LINE_CAP)
    ensures forall k :: 0 <= k < |lines| ==> WithinCap(lines[k])
    ensures !HasFullLine(stream, LINE_CAP) ==> lines == LinesOf(stream, LINE_CAP)
  {
    var splitter := new CappedSplitter(LINE_CAP);
    var scanner := new Scanner(SCAN_BUF, reader, splitter, stream);
    ghost var c, s0 := scanner.Conf(), scanner.Abs();
    lines := [];
    var more := true;
    while more
      invariant scanner.Conf() == c && scanner.splitter == splitter && Sound(c, scanner.Abs())
      invariant if more then Produced(lines, c, scanner.Abs(), s0) else lines == Lines(c, s0)
      decreases more, |Left(scanner.Abs())|
    {
      ghost var s := scanner.Abs();
      var r := scanner.Scan();
      if r.Token? {
        ProduceOne(lines, Line(r.text, splitter.capped), c, s, scanner.Abs(), s0);
        lines := lines + [Line(r.text, splitter.capped)];
      } else {
        assert lines + [] == lines;
        more := false;
      }
    }
    ScanFacts(stream, reader, lines);
  }

  lemma ScanFacts(stream: string, reader: Reader, lines: seq<Line>)
    requires lines == ScanOf(stream, reader)
    ensures exists pieces :: Cuts(stream, lines, pieces, LINE_CAP)
    ensures forall k :: 0 <= k < |lines| ==> WithinCap(lines[k])
    ensures !HasFullLine(stream, LINE_CAP) ==> lines == LinesOf(stream, LINE_CAP)
  {
    var pieces := LinesCut(Config(SCAN_BUF, LINE_CAP, reader), Started(stream));
    assert Left(Started(stream)) == stream;
    forall k | 0 <= k < |lines| ensures WithinCap(lines[k]) {
      assert Stands(pieces[k], lines[k], k == |lines| - 1, LINE_CAP);
    }
    LinesIndependentIff(stream);
  }
}
