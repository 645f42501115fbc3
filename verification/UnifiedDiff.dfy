/** The one-hunk unified diff shown to the operator before a search/replace patch
    is applied (internal/fsops/run.go, renderUnifiedDiff).

    `Parse` and `ApplyHunk` read the unified format independently of the renderer, which
    is proved correct against them and not against its own index arithmetic. They work
    on strings.Split lines, as the source does. `PatchesBytes` is the format of
    POSIX.1-2017 XCU diff, "Diff -u or -U Output Format", where every line of a hunk
    ends with a newline; when the printed hunk is also that is stated exactly. */
module UnifiedDiff {
  import opened Text

  const CONTEXT := 3

  datatype HunkLine = Keep(text: string) | Remove(text: string) | Insert(text: string)

  datatype Hunk = Hunk(
    oldPath: string, newPath: string,
    oldStart: nat, oldCount: nat, newStart: nat, newCount: nat,
    body: seq<HunkLine>)

  // ---- Reading a diff ----

  function ParseLine(l: string): (r: Option<HunkLine>)
  {
    if l == "" then None
    else if l[0] == ' ' then Some(Keep(l[1..]))
    else if l[0] == '-' then Some(Remove(l[1..]))
    else if l[0] == '+' then Some(Insert(l[1..]))
    else None
  }

  function ParseBody(ls: seq<string>): (r: Option<seq<HunkLine>>)
    ensures r.Some? ==> |r.value| == |ls|
  {
    if ls == [] then Some([])
    else
      var first, rest := ParseLine(ls[0]), ParseBody(ls[1..]);
      if first.Some? && rest.Some? then Some([first.value] + rest.value) else None
  }

  /** A number after a fixed lead-in. */
  function ParseField(s: string, lead: string): Option<(nat, string)>
  {
    match CutPrefix(s, lead)
    case None => None
    case Some(t) => ParseNat(t)
  }

  /** A "start,count" pair after a fixed lead-in. */
  function ParsePair(s: string, lead: string): Option<(nat, nat, string)>
  {
    match ParseField(s, lead)
    case None => None
    case Some((a, s1)) =>
      match ParseField(s1, ",")
      case None => None
      case Some((b, s2)) => Some((a, b, s2))
  }

  /** The "@@ -a,b +c,d @@" line. */
  function ParseRange(s: string): Option<(nat, nat, nat, nat)>
  {
    match ParsePair(s, "@@ -")
    case None => None
    case Some((a, b, s1)) =>
      match ParsePair(s1, " +")
      case None => None
      case Some((c, d, s2)) => if s2 == " @@" then Some((a, b, c, d)) else None
  }

  function ParseParts(a: string, b: string, range: string, marks: seq<string>): (r: Option<Hunk>)
  {
    var o, n := CutPrefix(a, "--- a/"), CutPrefix(b, "+++ b/");
    var g, body := ParseRange(range), ParseBody(marks);
    if o.None? || n.None? || g.None? || body.None? then None
    else Some(Hunk(o.value, n.value, g.value.0, g.value.1, g.value.2, g.value.3, body.value))
  }

  function ParseLines(ls: seq<string>): (r: Option<Hunk>)
  {
    if |ls| < 4 || ls[|ls| - 1] != "" then None
    else ParseParts(ls[0], ls[1], ls[2], ls[3..|ls| - 1])
  }

  function Parse(text: string): (r: Option<Hunk>)
  {
    ParseLines(Split(text, '\n'))
  }

  /** The lines a hunk expects to find. */
  function OldSide(body: seq<HunkLine>): seq<string>
  {
    if body == [] then [] else (if body[0].Insert? then [] else [body[0].text]) + OldSide(body[1..])
  }

  /** The lines a hunk leaves behind. */
  function NewSide(body: seq<HunkLine>): seq<string>
  {
    if body == [] then [] else (if body[0].Remove? then [] else [body[0].text]) + NewSide(body[1..])
  }

  predicate CountsExact(h: Hunk)
  {
    |OldSide(h.body)| == h.oldCount && |NewSide(h.body)| == h.newCount
  }

  /** What a patch tool does: the old side must match at the addressed lines,
      which the new side then replaces. */
  function ApplyHunk(lines: seq<string>, h: Hunk): (r: Option<seq<string>>)
  {
    var expected := OldSide(h.body);
    if !CountsExact(h) || h.oldStart == 0 || h.oldStart - 1 + h.oldCount > |lines| then None
    else
      var at := h.oldStart - 1;
      if lines[at..at + h.oldCount] != expected then None
      else Some(lines[..at] + NewSide(h.body) + lines[at + h.oldCount..])
  }

  /** The hunk that undoes h. */
  function Reverse(h: Hunk): Hunk
  {
    Hunk(h.newPath, h.oldPath, h.newStart, h.newCount, h.oldStart, h.oldCount, ReverseBody(h.body))
  }

  function ReverseBody(body: seq<HunkLine>): seq<HunkLine>
  {
    if body == [] then []
    else
      [match body[0] case Keep(t) => Keep(t) case Remove(t) => Insert(t) case Insert(t) => Remove(t)]
      + ReverseBody(body[1..])
  }

  lemma {:induction false} ReverseSides(body: seq<HunkLine>)
    ensures OldSide(ReverseBody(body)) == NewSide(body)
    ensures NewSide(ReverseBody(body)) == OldSide(body)
  {
    if body == [] {
    } else {
      ReverseSides(body[1..]);
      assert ReverseBody(body)[1..] == ReverseBody(body[1..]);
    }
  }

  // ---- Printing ----

  function Mark(l: HunkLine): string
  {
    match l
    case Keep(t) => " " + t
    case Remove(t) => "-" + t
    case Insert(t) => "+" + t
  }

  function Marks(body: seq<HunkLine>): seq<string>
  {
    seq(|body|, i requires 0 <= i < |body| => Mark(body[i]))
  }

  function PairText(lead: string, a: nat, b: nat, rest: string): string
  {
    lead + (Decimal(a) + ("," + (Decimal(b) + rest)))
  }

  function RangeLine(a: nat, b: nat, c: nat, d: nat): string
  {
    PairText("@@ -", a, b, PairText(" +", c, d, " @@"))
  }

  function HeaderText(oldPath: string, newPath: string, range: string): string
  {
    Unlines(["--- a/" + oldPath, "+++ b/" + newPath, range])
  }

  function Print(h: Hunk): string
  {
    HeaderText(h.oldPath, h.newPath, RangeLine(h.oldStart, h.oldCount, h.newStart, h.newCount))
    + Unlines(Marks(h.body))
  }

  lemma FieldParses(lead: string, n: nat, rest: string)
    requires rest == "" || !IsDigit(rest[0])
    ensures ParseField(lead + (Decimal(n) + rest), lead) == Some((n, rest))
  {
    CutPrefixConcat(lead, Decimal(n) + rest);
    ParseNatRoundTrip(n, rest);
  }

  lemma PairParses(lead: string, a: nat, b: nat, rest: string)
    requires rest == "" || !IsDigit(rest[0])
    ensures ParsePair(PairText(lead, a, b, rest), lead) == Some((a, b, rest))
  {
    var s1 := "," + (Decimal(b) + rest);
    assert s1[0] == ',';
    FieldParses(lead, a, s1);
    FieldParses(",", b, rest);
  }

  lemma RangeLineParses(a: nat, b: nat, c: nat, d: nat)
    ensures ParseRange(RangeLine(a, b, c, d)) == Some((a, b, c, d))
  {
    var s1 := PairText(" +", c, d, " @@");
    assert ParsePair(RangeLine(a, b, c, d), "@@ -") == Some((a, b, s1)) by {
      assert s1[0] == ' ';
      PairParses("@@ -", a, b, s1);
    }
    assert ParsePair(s1, " +") == Some((c, d, " @@")) by { PairParses(" +", c, d, " @@"); }
  }

  lemma RangeLineClean(a: nat, b: nat, c: nat, d: nat)
    ensures '\n' !in RangeLine(a, b, c, d)
  {
  }

  lemma MarkParses(l: HunkLine)
    ensures ParseLine(Mark(l)) == Some(l)
  {
  }

  lemma {:induction false} MarksParse(body: seq<HunkLine>)
    ensures ParseBody(Marks(body)) == Some(body)
  {
    if body == [] {
      assert Marks(body) == [];
    } else {
      MarksParse(body[1..]);
      MarkParses(body[0]);
      MarksCons(body);
      ParseCons(Mark(body[0]), Marks(body[1..]));
      assert body == [body[0]] + body[1..];
    }
  }

  lemma MarksCons(body: seq<HunkLine>)
    requires body != []
    ensures Marks(body) == [Mark(body[0])] + Marks(body[1..])
  {
  }

  lemma ParseCons(l: string, ls: seq<string>)
    requires ParseLine(l).Some? && ParseBody(ls).Some?
    ensures ParseBody([l] + ls) == Some([ParseLine(l).value] + ParseBody(ls).value)
  {
  }

  predicate CleanBody(body: seq<HunkLine>)
  {
    forall i :: 0 <= i < |body| ==> '\n' !in body[i].text
  }

  lemma PrintShape(a: string, b: string, g: string, ms: seq<string>)
    ensures Unlines([a, b, g]) + Unlines(ms) == a + "\n" + (b + "\n" + Unlines([g] + ms))
  {
    UnlinesConcat([a, b, g], ms);
    var all := [a, b, g] + ms;
    assert all[1..] == [b, g] + ms && ([b, g] + ms)[1..] == [g] + ms;
    assert Unlines(all) == a + "\n" + Unlines([b, g] + ms);
    assert Unlines([b, g] + ms) == b + "\n" + Unlines([g] + ms);
  }

  lemma PrintLines(h: Hunk)
    requires CleanBody(h.body)
    ensures Split(Print(h), '\n')
         == Split("--- a/" + h.oldPath, '\n') + (Split("+++ b/" + h.newPath, '\n')
            + ([RangeLine(h.oldStart, h.oldCount, h.newStart, h.newCount)] + Marks(h.body) + [""]))
  {
    var a, b := "--- a/" + h.oldPath, "+++ b/" + h.newPath;
    var g := RangeLine(h.oldStart, h.oldCount, h.newStart, h.newCount);
    var ms := Marks(h.body);
    RangeLineClean(h.oldStart, h.oldCount, h.newStart, h.newCount);
    MarksClean(h.body);
    SplitUnlines([g] + ms);
    PrintShape(a, b, g, ms);
    SplitAtBreak(a, b + "\n" + Unlines([g] + ms));
    SplitAtBreak(b, Unlines([g] + ms));
  }

  lemma MarksClean(body: seq<HunkLine>)
    requires CleanBody(body)
    ensures forall i :: 0 <= i < |Marks(body)| ==> '\n' !in Marks(body)[i]
  {
  }

  lemma SplitAtBreak(a: string, b: string)
    ensures Split(a + "\n" + b, '\n') == Split(a, '\n') + Split(b, '\n')
  {
    SplitConcat(a, "\n" + b, '\n');
    assert a + "\n" + b == a + ("\n" + b);
    assert ("\n" + b)[1..] == b;
    var la := Split(a, '\n');
    assert la[|la| - 1] + "" == la[|la| - 1];
    assert la == la[..|la| - 1] + [la[|la| - 1]];
  }

  lemma LinesParse(a: string, b: string, g: string, ms: seq<string>)
    ensures ParseLines([a] + ([b] + ([g] + ms + [""]))) == ParseParts(a, b, g, ms)
  {
    var ls := [a] + ([b] + ([g] + ms + [""]));
    assert |ls| == |ms| + 4 && ls[0] == a && ls[1] == b && ls[2] == g && ls[|ls| - 1] == "";
    assert ls[3..|ls| - 1] == ms;
  }

  /** Printing and parsing are inverse on every hunk whose paths and lines hold no newline. */
  lemma PrintParses(h: Hunk)
    requires CleanBody(h.body) && '\n' !in h.oldPath && '\n' !in h.newPath
    ensures Parse(Print(h)) == Some(h)
  {
    var a, b := "--- a/" + h.oldPath, "+++ b/" + h.newPath;
    var g := RangeLine(h.oldStart, h.oldCount, h.newStart, h.newCount);
    assert Split(Print(h), '\n') == [a] + ([b] + ([g] + Marks(h.body) + [""])) by {
      PrintLines(h);
      SplitOneLine(a, '\n');
      SplitOneLine(b, '\n');
    }
    CutPrefixConcat("--- a/", h.oldPath);
    CutPrefixConcat("+++ b/", h.newPath);
    RangeLineParses(h.oldStart, h.oldCount, h.newStart, h.newCount);
    MarksParse(h.body);
    LinesParse(a, b, g, Marks(h.body));
  }

  lemma {:induction false} ForeignLineFails(ls: seq<string>, k: nat)
    requires k < |ls| && ParseLine(ls[k]).None?
    ensures ParseBody(ls).None?
  {
    if k == 0 {
    } else {
      ForeignLineFails(ls[1..], k - 1);
    }
  }

  lemma LateRangeLine(la: seq<string>, lb: seq<string>, g: string, ms: seq<string>)
    requires |la| + |lb| > 2 && ParseLine(g).None?
    ensures ParseLines(la + (lb + ([g] + ms + [""]))).None?
  {
    var tail := [g] + ms + [""];
    var rest := lb + tail;
    var ls := la + rest;
    assert tail[0] == g && rest[|lb|] == g;
    assert ls[|la| + |lb|] == g;
    LateForeign(ls, |la| + |lb|);
  }

  lemma LateForeign(ls: seq<string>, at: nat)
    requires 3 <= at < |ls| - 1 && ParseLine(ls[at]).None?
    ensures ParseLines(ls).None?
  {
    ForeignLineFails(ls[3..|ls| - 1], at - 3);
  }

  /** A path with a newline in it pushes the range line down into the body, where
      its '@' is not a line mark. */
  lemma NewlinePathUnreadable(h: Hunk)
    requires CleanBody(h.body) && '\n' in h.oldPath
    ensures Parse(Print(h)).None?
  {
    PrintLines(h);
    var a := "--- a/" + h.oldPath;
    assert '\n' in a by { assert a[6..] == h.oldPath; }
    SplitCount(a, '\n');
    CountZero(a, '\n');
    var g := RangeLine(h.oldStart, h.oldCount, h.newStart, h.newCount);
    assert g[0] == '@';
    LateRangeLine(Split(a, '\n'), Split("+++ b/" + h.newPath, '\n'), g, Marks(h.body));
  }

  // ---- The hunk the renderer builds ----

  function Keeps(ls: seq<string>): (r: seq<HunkLine>) { seq(|ls|, i requires 0 <= i < |ls| => Keep(ls[i])) }

  function Removes(ls: seq<string>): (r: seq<HunkLine>) { seq(|ls|, i requires 0 <= i < |ls| => Remove(ls[i])) }

  function Inserts(ls: seq<string>): (r: seq<HunkLine>) { seq(|ls|, i requires 0 <= i < |ls| => Insert(ls[i])) }

  lemma {:induction false} OldSideConcat(a: seq<HunkLine>, b: seq<HunkLine>)
    ensures OldSide(a + b) == OldSide(a) + OldSide(b)
  {
    if a == [] {
      assert a + b == b;
    } else {
      assert (a + b)[1..] == a[1..] + b;
      OldSideConcat(a[1..], b);
    }
  }

  lemma {:induction false} NewSideConcat(a: seq<HunkLine>, b: seq<HunkLine>)
    ensures NewSide(a + b) == NewSide(a) + NewSide(b)
  {
    if a == [] {
      assert a + b == b;
    } else {
      assert (a + b)[1..] == a[1..] + b;
      NewSideConcat(a[1..], b);
    }
  }

  lemma SidesConcat(a: seq<HunkLine>, b: seq<HunkLine>)
    ensures OldSide(a + b) == OldSide(a) + OldSide(b)
    ensures NewSide(a + b) == NewSide(a) + NewSide(b)
  {
    OldSideConcat(a, b);
    NewSideConcat(a, b);
  }

  lemma {:induction false} KeepsSides(ls: seq<string>)
    ensures OldSide(Keeps(ls)) == ls && NewSide(Keeps(ls)) == ls
  {
    if ls == [] {
    } else {
      KeepsSides(ls[1..]);
      assert Keeps(ls)[1..] == Keeps(ls[1..]);
    }
  }

  lemma {:induction false} RemovesSides(ls: seq<string>)
    ensures OldSide(Removes(ls)) == ls && NewSide(Removes(ls)) == []
  {
    if ls == [] {
    } else {
      RemovesSides(ls[1..]);
      assert Removes(ls)[1..] == Removes(ls[1..]);
    }
  }

  lemma {:induction false} InsertsSides(ls: seq<string>)
    ensures OldSide(Inserts(ls)) == [] && NewSide(Inserts(ls)) == ls
  {
    if ls == [] {
    } else {
      InsertsSides(ls[1..]);
      assert Inserts(ls)[1..] == Inserts(ls[1..]);
    }
  }

  /** Leading context, removed lines, inserted lines, trailing context. */
  function Body(lead: seq<string>, gone: seq<string>, added: seq<string>, trail: seq<string>): seq<HunkLine>
  {
    (Keeps(lead) + Removes(gone)) + (Inserts(added) + Keeps(trail))
  }

  function Max0(x: int): nat { if x < 0 then 0 else x }

  function Min(x: int, y: int): int { if x < y then x else y }

  /** before[idx..idx+searchLen] was replaced, giving after[idx..idx+replaceLen]. */
  predicate SingleEdit(before: string, after: string, idx: nat, searchLen: nat, replaceLen: nat)
  {
    && idx + searchLen <= |before| && idx + replaceLen <= |after|
    && before[..idx] == after[..idx]
    && before[idx + searchLen..] == after[idx + replaceLen..]
  }

  /** The line numbers the renderer computes: first and last changed line on each
      side, and where the context ends. */
  datatype Extent = Extent(first: nat, last: nat, afterLast: nat, start: nat, endBefore: int, endAfter: int)

  predicate Extends(e: Extent, nb: nat, na: nat)
  {
    && e.start <= e.first <= e.last <= e.endBefore < nb
    && e.first <= e.afterLast <= e.endAfter < na
  }

  function Window(first: nat, last: nat, afterLast: nat, nb: nat, na: nat): Extent
  {
    Extent(first, last, afterLast, Max0(first - CONTEXT), Min(last + CONTEXT, nb - 1), Min(afterLast + CONTEXT, na - 1))
  }

  function ExtentOf(before: string, after: string, idx: nat, searchLen: nat, replaceLen: nat): Extent
    requires SingleEdit(before, after, idx, searchLen, replaceLen)
  {
    Window(CountChar(before[..idx], '\n'), CountChar(before[..idx + searchLen], '\n'),
           CountChar(after[..idx + replaceLen], '\n'), |Split(before, '\n')|, |Split(after, '\n')|)
  }

  lemma ExtentOrdered(before: string, after: string, idx: nat, searchLen: nat, replaceLen: nat)
    requires SingleEdit(before, after, idx, searchLen, replaceLen)
    ensures Extends(ExtentOf(before, after, idx, searchLen, replaceLen), |Split(before, '\n')|, |Split(after, '\n')|)
  {
    SplitCount(before, '\n');
    SplitCount(after, '\n');
    PrefixCount(before, idx, idx + searchLen);
    PrefixCount(before, idx + searchLen, |before|);
    PrefixCount(after, idx, idx + replaceLen);
    PrefixCount(after, idx + replaceLen, |after|);
    assert before[..|before|] == before && after[..|after|] == after;
  }

  lemma PrefixCount(s: string, i: nat, j: nat)
    requires i <= j <= |s|
    ensures CountChar(s[..i], '\n') <= CountChar(s[..j], '\n')
  {
    assert s[..j] == s[..i] + s[i..j];
    CountConcat(s[..i], s[i..j], '\n');
  }

  function HunkAt(path: string, b: seq<string>, a: seq<string>, e: Extent): Hunk
    requires Extends(e, |b|, |a|)
  {
    Hunk(path, path, e.start + 1, e.endBefore - e.start + 1, e.start + 1, e.endAfter - e.start + 1,
         BodyAt(b, a, e))
  }

  function BodyAt(b: seq<string>, a: seq<string>, e: Extent): seq<HunkLine>
    requires Extends(e, |b|, |a|)
  {
    Body(b[e.start..e.first], b[e.first..e.last + 1], a[e.first..e.afterLast + 1], a[e.afterLast + 1..e.endAfter + 1])
  }

  function HunkFor(path: string, before: string, after: string, idx: nat, searchLen: nat, replaceLen: nat): Hunk
    requires SingleEdit(before, after, idx, searchLen, replaceLen)
  {
    ExtentOrdered(before, after, idx, searchLen, replaceLen);
    HunkAt(path, Split(before, '\n'), Split(after, '\n'), ExtentOf(before, after, idx, searchLen, replaceLen))
  }

  /** One of the renderer's loops: lines[lo..hi), each behind its mark. */
  method EmitRange(mark: char, lines: seq<string>, lo: nat, hi: nat) returns (out: string)
    requires lo <= hi <= |lines|
    ensures IsRange(out, mark, lines, lo, hi)
  {
    out := "";
    var i := lo;
    while i < hi
      invariant lo <= i <= hi
      invariant out == Unlines(Prefixed(mark, lines[lo..i]))
    {
      out := out + ([mark] + lines[i] + "\n");
      assert lines[lo..i + 1] == lines[lo..i] + [lines[i]];
      PrefixedAppend(mark, lines[lo..i], lines[i]);
      i := i + 1;
    }
  }

  ghost predicate IsRange(text: string, mark: char, lines: seq<string>, lo: int, hi: int)
  {
    0 <= lo <= hi <= |lines| && text == Unlines(Prefixed(mark, lines[lo..hi]))
  }

  function Prefixed(mark: char, ls: seq<string>): seq<string>
  {
    seq(|ls|, i requires 0 <= i < |ls| => [mark] + ls[i])
  }

  lemma PrefixedAppend(mark: char, ls: seq<string>, l: string)
    ensures Unlines(Prefixed(mark, ls + [l])) == Unlines(Prefixed(mark, ls)) + ([mark] + l + "\n")
  {
    assert Prefixed(mark, ls + [l]) == Prefixed(mark, ls) + [[mark] + l];
    UnlinesConcat(Prefixed(mark, ls), [[mark] + l]);
    assert Unlines([[mark] + l]) == [mark] + l + "\n" + Unlines([]);
  }

  lemma BodyText(lead: seq<string>, gone: seq<string>, added: seq<string>, trail: seq<string>)
    ensures Unlines(Marks(Body(lead, gone, added, trail)))
         == (Unlines(Prefixed(' ', lead)) + Unlines(Prefixed('-', gone)))
            + (Unlines(Prefixed('+', added)) + Unlines(Prefixed(' ', trail)))
  {
    var x, y := Keeps(lead) + Removes(gone), Inserts(added) + Keeps(trail);
    MarksText(x, y);
    MarksText(Keeps(lead), Removes(gone));
    MarksText(Inserts(added), Keeps(trail));
    MarksPrefixed(lead);
    MarksPrefixed(gone);
    MarksPrefixed(added);
    MarksPrefixed(trail);
  }

  lemma MarksText(x: seq<HunkLine>, y: seq<HunkLine>)
    ensures Unlines(Marks(x + y)) == Unlines(Marks(x)) + Unlines(Marks(y))
  {
    assert Marks(x + y) == Marks(x) + Marks(y);
    UnlinesConcat(Marks(x), Marks(y));
  }

  lemma MarksPrefixed(ls: seq<string>)
    ensures Marks(Keeps(ls)) == Prefixed(' ', ls)
    ensures Marks(Removes(ls)) == Prefixed('-', ls)
    ensures Marks(Inserts(ls)) == Prefixed('+', ls)
  {
  }

  /** renderUnifiedDiff: clamps the context windows, then prints header and four line ranges. */
  method RenderUnifiedDiff(path: string, before: string, after: string, idx: nat, searchLen: nat, replaceLen: nat)
    returns (out: string)
    requires SingleEdit(before, after, idx, searchLen, replaceLen)
    ensures out == Print(HunkFor(path, before, after, idx, searchLen, replaceLen))
  {
    ExtentOrdered(before, after, idx, searchLen, replaceLen);
    var beforeLines, afterLines := Split(before, '\n'), Split(after, '\n');
    var firstLine := CountChar(before[..idx], '\n');
    var lastLine := CountChar(before[..idx + searchLen], '\n');
    var afterFirst := firstLine;
    var afterLast := CountChar(after[..idx + replaceLen], '\n');

    var startCtx := firstLine - CONTEXT;
    if startCtx < 0 { startCtx := 0; }
    var endCtxBefore := lastLine + CONTEXT;
    if endCtxBefore >= |beforeLines| { endCtxBefore := |beforeLines| - 1; }
    var endCtxAfter := afterLast + CONTEXT;
    if endCtxAfter >= |afterLines| { endCtxAfter := |afterLines| - 1; }

    ghost var e := Window(firstLine, lastLine, afterLast, |beforeLines|, |afterLines|);
    assert e == ExtentOf(before, after, idx, searchLen, replaceLen);
    out := EmitHunk(path, beforeLines, afterLines, firstLine, lastLine, afterFirst, afterLast,
                    startCtx, endCtxBefore, endCtxAfter, e);
  }

  /** The printing half of renderUnifiedDiff. */
  method EmitHunk(path: string, beforeLines: seq<string>, afterLines: seq<string>,
                  firstLine: nat, lastLine: nat, afterFirst: nat, afterLast: nat,
                  startCtx: nat, endCtxBefore: int, endCtxAfter: int, ghost e: Extent)
    returns (out: string)
    requires Extends(e, |beforeLines|, |afterLines|) && afterFirst == firstLine
    requires e == Extent(firstLine, lastLine, afterLast, startCtx, endCtxBefore, endCtxAfter)
    ensures out == Print(HunkAt(path, beforeLines, afterLines, e))
  {
    var range := RangeLine(startCtx + 1, endCtxBefore - startCtx + 1, startCtx + 1, endCtxAfter - startCtx + 1);
    var body := EmitLines(beforeLines, afterLines, firstLine, lastLine, afterFirst, afterLast,
                          startCtx, endCtxAfter, e);
    out := HeaderText(path, path, range) + body;
  }

  /** Its four loops. */
  method EmitLines(beforeLines: seq<string>, afterLines: seq<string>,
                   firstLine: nat, lastLine: nat, afterFirst: nat, afterLast: nat,
                   startCtx: nat, endCtxAfter: int, ghost e: Extent)
    returns (out: string)
    requires Extends(e, |beforeLines|, |afterLines|) && afterFirst == firstLine
    requires e == Extent(firstLine, lastLine, afterLast, startCtx, e.endBefore, endCtxAfter)
    ensures out == Unlines(Marks(BodyAt(beforeLines, afterLines, e)))
  {
    var lead := EmitRange(' ', beforeLines, startCtx, firstLine);
    var gone := EmitRange('-', beforeLines, firstLine, lastLine + 1);
    var added := EmitRange('+', afterLines, afterFirst, afterLast + 1);
    var trail := EmitRange(' ', afterLines, afterLast + 1, endCtxAfter + 1);
    out := (lead + gone) + (added + trail);
    HunkText(beforeLines, afterLines, e, lead, gone, added, trail);
  }

  lemma HunkText(b: seq<string>, a: seq<string>, e: Extent, lead: string, gone: string, added: string, trail: string)
    requires Extends(e, |b|, |a|)
    requires IsRange(lead, ' ', b, e.start, e.first) && IsRange(gone, '-', b, e.first, e.last + 1)
    requires IsRange(added, '+', a, e.first, e.afterLast + 1) && IsRange(trail, ' ', a, e.afterLast + 1, e.endAfter + 1)
    ensures Unlines(Marks(BodyAt(b, a, e))) == (lead + gone) + (added + trail)
  {
    BodyText(b[e.start..e.first], b[e.first..e.last + 1],
             a[e.first..e.afterLast + 1], a[e.afterLast + 1..e.endAfter + 1]);
  }

  // ---- What the printed diff means ----

  /** Two line lists that agree before `first` and after `last`/`afterLast`. */
  ghost predicate Framed(b: seq<string>, a: seq<string>, first: nat, last: nat, afterLast: nat)
  {
    && first <= last < |b| && first <= afterLast < |a|
    && b[..first] == a[..first]
    && b[last + 1..] == a[afterLast + 1..]
  }

  /** Around an edit, the lines before the first changed line and after the last
      one are the same on both sides. */
  lemma EditFrame(p: string, s: string, r: string, q: string)
    ensures Framed(Split(p + s + q, '\n'), Split(p + r + q, '\n'),
                   CountChar(p, '\n'), CountChar(p + s, '\n'), CountChar(p + r, '\n'))
  {
    SideShape(p, s, q);
    SideShape(p, r, q);
  }

  lemma SideShape(p: string, s: string, q: string)
    ensures var b := Split(p + s + q, '\n');
      var first, last := CountChar(p, '\n'), CountChar(p + s, '\n');
      && first <= last < |b| && first < |Split(p, '\n')|
      && b[..first] == Split(p, '\n')[..first]
      && b[last + 1..] == Split(q, '\n')[1..]
  {
    SplitConcat(p, s, '\n');
    SplitConcat(p + s, q, '\n');
    SplitCount(p, '\n');
    SplitCount(p + s, '\n');
    SplitCount(p + s + q, '\n');
    CountConcat(p, s, '\n');
    CountConcat(p + s, q, '\n');
  }

  lemma SideOf(lead: seq<string>, gone: seq<string>, added: seq<string>, trail: seq<string>)
    ensures OldSide(Body(lead, gone, added, trail)) == lead + gone + trail
    ensures NewSide(Body(lead, gone, added, trail)) == lead + added + trail
  {
    var x, y := Keeps(lead) + Removes(gone), Inserts(added) + Keeps(trail);
    SidesConcat(x, y);
    assert OldSide(x) == lead + gone && NewSide(x) == lead by {
      SidesConcat(Keeps(lead), Removes(gone));
      KeepsSides(lead);
      RemovesSides(gone);
    }
    assert OldSide(y) == trail && NewSide(y) == added + trail by {
      SidesConcat(Inserts(added), Keeps(trail));
      InsertsSides(added);
      KeepsSides(trail);
    }
  }

  lemma EditSlices(p: string, s: string, r: string, q: string)
    ensures SingleEdit(p + s + q, p + r + q, |p|, |s|, |r|)
    ensures (p + s + q)[..|p|] == p && (p + s + q)[..|p| + |s|] == p + s
    ensures (p + r + q)[..|p|] == p && (p + r + q)[..|p| + |r|] == p + r
  {
  }

  lemma SidesFromFrame(b: seq<string>, a: seq<string>, e: Extent)
    requires Extends(e, |b|, |a|)
    requires e.endBefore - e.last == e.endAfter - e.afterLast
    requires Framed(b, a, e.first, e.last, e.afterLast)
    ensures var lead, trail := b[e.start..e.first], a[e.afterLast + 1..e.endAfter + 1];
      && lead + b[e.first..e.last + 1] + trail == b[e.start..e.endBefore + 1]
      && lead + a[e.first..e.afterLast + 1] + trail == a[e.start..e.endAfter + 1]
      && b[..e.start] == a[..e.start]
      && b[e.endBefore + 1..] == a[e.endAfter + 1..]
  {
    var bt, at := b[e.last + 1..], a[e.afterLast + 1..];
    var n := e.endAfter - e.afterLast;
    assert a[e.afterLast + 1..e.endAfter + 1] == at[..n] == bt[..n] == b[e.last + 1..e.endBefore + 1];
    assert b[e.endBefore + 1..] == bt[n..] && a[e.endAfter + 1..] == at[n..];
    var bh, ah := b[..e.first], a[..e.first];
    assert b[e.start..e.first] == bh[e.start..] == ah[e.start..] == a[e.start..e.first];
    assert b[..e.start] == bh[..e.start] == ah[..e.start] == a[..e.start];
    JoinSlices(b, e.start, e.first, e.last + 1, e.endBefore + 1);
    JoinSlices(a, e.start, e.first, e.afterLast + 1, e.endAfter + 1);
  }

  lemma JoinSlices(s: seq<string>, i: nat, j: nat, k: nat, l: nat)
    requires i <= j <= k <= l <= |s|
    ensures s[i..j] + s[j..k] + s[k..l] == s[i..l]
  {
  }

  lemma WindowBalanced(b: seq<string>, a: seq<string>, first: nat, last: nat, afterLast: nat)
    requires Framed(b, a, first, last, afterLast)
    ensures var e := Window(first, last, afterLast, |b|, |a|);
      Extends(e, |b|, |a|) && e.endBefore - e.last == e.endAfter - e.afterLast
  {
  }

  /** The hunk addresses the lines it carries, and everything else is the same on both sides. */
  ghost predicate Addresses(h: Hunk, b: seq<string>, a: seq<string>)
  {
    && 1 <= h.oldStart == h.newStart
    && h.oldStart - 1 + h.oldCount <= |b| && h.newStart - 1 + h.newCount <= |a|
    && OldSide(h.body) == b[h.oldStart - 1..h.oldStart - 1 + h.oldCount]
    && NewSide(h.body) == a[h.newStart - 1..h.newStart - 1 + h.newCount]
    && b[..h.oldStart - 1] == a[..h.newStart - 1]
    && b[h.oldStart - 1 + h.oldCount..] == a[h.newStart - 1 + h.newCount..]
  }

  lemma HunkSides(path: string, p: string, s: string, r: string, q: string)
    ensures SingleEdit(p + s + q, p + r + q, |p|, |s|, |r|)
    ensures Addresses(HunkFor(path, p + s + q, p + r + q, |p|, |s|, |r|),
                      Split(p + s + q, '\n'), Split(p + r + q, '\n'))
  {
    ExtentOfEdit(p, s, r, q);
    EditFrame(p, s, r, q);
    EditAddresses(path, Split(p + s + q, '\n'), Split(p + r + q, '\n'),
                  CountChar(p, '\n'), CountChar(p + s, '\n'), CountChar(p + r, '\n'));
  }

  lemma ExtentOfEdit(p: string, s: string, r: string, q: string)
    ensures SingleEdit(p + s + q, p + r + q, |p|, |s|, |r|)
    ensures ExtentOf(p + s + q, p + r + q, |p|, |s|, |r|)
         == Window(CountChar(p, '\n'), CountChar(p + s, '\n'), CountChar(p + r, '\n'),
                   |Split(p + s + q, '\n')|, |Split(p + r + q, '\n')|)
  {
    EditSlices(p, s, r, q);
  }

  lemma EditAddresses(path: string, b: seq<string>, a: seq<string>, first: nat, last: nat, afterLast: nat)
    requires Framed(b, a, first, last, afterLast)
    ensures var e := Window(first, last, afterLast, |b|, |a|);
      Extends(e, |b|, |a|) && Addresses(HunkAt(path, b, a, e), b, a)
  {
    WindowBalanced(b, a, first, last, afterLast);
    WindowAddresses(path, b, a, Window(first, last, afterLast, |b|, |a|));
  }

  lemma WindowAddresses(path: string, b: seq<string>, a: seq<string>, e: Extent)
    requires Extends(e, |b|, |a|)
    requires e.endBefore - e.last == e.endAfter - e.afterLast
    requires Framed(b, a, e.first, e.last, e.afterLast)
    ensures Addresses(HunkAt(path, b, a, e), b, a)
  {
    SidesFromFrame(b, a, e);
    SideOf(b[e.start..e.first], b[e.first..e.last + 1],
           a[e.first..e.afterLast + 1], a[e.afterLast + 1..e.endAfter + 1]);
  }

  lemma AddressedApplies(h: Hunk, b: seq<string>, a: seq<string>)
    requires Addresses(h, b, a)
    ensures CountsExact(h) && ApplyHunk(b, h) == Some(a) && ApplyHunk(a, Reverse(h)) == Some(b)
  {
    var at := h.oldStart - 1;
    assert a == a[..at] + a[at..at + h.newCount] + a[at + h.newCount..];
    assert b == b[..at] + b[at..at + h.oldCount] + b[at + h.oldCount..];
    ReverseSides(h.body);
  }

  /** Main result.  For every file P+S+Q, replacement R and newline-free path, the
      printed diff reads back as one hunk whose header counts are its body counts,
      whose application to the old lines gives exactly the new lines, and whose
      reversal gives the old lines back. */
  lemma DiffTurnsBeforeIntoAfter(path: string, p: string, s: string, r: string, q: string)
    requires '\n' !in path
    ensures SingleEdit(p + s + q, p + r + q, |p|, |s|, |r|)
    ensures var h := HunkFor(path, p + s + q, p + r + q, |p|, |s|, |r|);
      && Parse(Print(h)) == Some(h)
      && CountsExact(h)
      && ApplyHunk(Split(p + s + q, '\n'), h) == Some(Split(p + r + q, '\n'))
      && ApplyHunk(Split(p + r + q, '\n'), Reverse(h)) == Some(Split(p + s + q, '\n'))
  {
    HunkSides(path, p, s, r, q);
    var h := HunkFor(path, p + s + q, p + r + q, |p|, |s|, |r|);
    BodyClean(path, p, s, r, q);
    PrintParses(h);
    AddressedApplies(h, Split(p + s + q, '\n'), Split(p + r + q, '\n'));
  }

  /** k lines kept, then m removed, then n inserted, then t kept. */
  ghost predicate Shows(body: seq<HunkLine>, k: nat, m: nat, n: nat, t: nat)
  {
    && |body| == k + m + n + t
    && (forall i :: 0 <= i < k || k + m + n <= i < |body| ==> body[i].Keep?)
    && (forall i :: k <= i < k + m ==> body[i].Remove?)
    && (forall i :: k + m <= i < k + m + n ==> body[i].Insert?)
  }

  lemma BodyShows(lead: seq<string>, gone: seq<string>, added: seq<string>, trail: seq<string>)
    ensures Shows(Body(lead, gone, added, trail), |lead|, |gone|, |added|, |trail|)
  {
  }

  /** The path on both sides, up to three lines of context before and after, and between them
      the removed lines and the added ones. */
  ghost predicate ShowsEdit(h: Hunk, path: string, above: nat, removed: nat, added: nat, below: nat)
  {
    && h.oldPath == path == h.newPath
    && h.oldStart == h.newStart == 1 + (if above < 3 then 0 else above - 3)
    && Shows(h.body, if above < 3 then above else 3, removed, added, if below < 3 then below else 3)
  }

  /** What the operator sees, in numbers: the lines the anchor touches, the lines that replace
      them, and three lines around them as far as there are any. */
  lemma DiffShows(path: string, p: string, s: string, r: string, q: string)
    ensures SingleEdit(p + s + q, p + r + q, |p|, |s|, |r|)
    ensures ShowsEdit(HunkFor(path, p + s + q, p + r + q, |p|, |s|, |r|), path,
                      CountChar(p, '\n'), CountChar(s, '\n') + 1, CountChar(r, '\n') + 1, CountChar(q, '\n'))
  {
    EditSlices(p, s, r, q);
    HunkShows(HunkFor(path, p + s + q, p + r + q, |p|, |s|, |r|), p + s + q, p + r + q, path, p, s, r, q);
  }

  lemma HunkShows(h: Hunk, before: string, after: string, path: string, p: string, s: string, r: string, q: string)
    requires IsHunkOf(h, before, after, path, p, s, r, q)
    ensures ShowsEdit(h, path, CountChar(p, '\n'), CountChar(s, '\n') + 1, CountChar(r, '\n') + 1, CountChar(q, '\n'))
  {
    ExtentOfEdit(p, s, r, q);
    ExtentOrdered(before, after, |p|, |s|, |r|);
    EditCounts(p, s, r, q);
    WindowShows(path, Split(before, '\n'), Split(after, '\n'),
                CountChar(p, '\n'), CountChar(p + s, '\n'), CountChar(p + r, '\n'));
  }

  lemma EditCounts(p: string, s: string, r: string, q: string)
    ensures CountChar(p + s, '\n') == CountChar(p, '\n') + CountChar(s, '\n')
    ensures CountChar(p + r, '\n') == CountChar(p, '\n') + CountChar(r, '\n')
    ensures |Split(p + r + q, '\n')| == CountChar(p + r, '\n') + CountChar(q, '\n') + 1
  {
    SplitCount(p + r + q, '\n');
    CountConcat(p, s, '\n');
    CountConcat(p, r, '\n');
    CountConcat(p + r, q, '\n');
  }

  lemma WindowShows(path: string, b: seq<string>, a: seq<string>, first: nat, last: nat, afterLast: nat)
    requires Extends(Window(first, last, afterLast, |b|, |a|), |b|, |a|)
    ensures ShowsEdit(HunkAt(path, b, a, Window(first, last, afterLast, |b|, |a|)), path,
                      first, last - first + 1, afterLast - first + 1, |a| - 1 - afterLast)
  {
    var e := Window(first, last, afterLast, |b|, |a|);
    BodyShows(b[e.start..e.first], b[e.first..e.last + 1], a[e.first..e.afterLast + 1],
              a[e.afterLast + 1..e.endAfter + 1]);
  }

  lemma BodyClean(path: string, p: string, s: string, r: string, q: string)
    requires SingleEdit(p + s + q, p + r + q, |p|, |s|, |r|)
    ensures CleanBody(HunkFor(path, p + s + q, p + r + q, |p|, |s|, |r|).body)
  {
    SplitPiecesClean(p + s + q, '\n');
    SplitPiecesClean(p + r + q, '\n');
    ExtentOrdered(p + s + q, p + r + q, |p|, |s|, |r|);
    var e := ExtentOf(p + s + q, p + r + q, |p|, |s|, |r|);
    var b, a := Split(p + s + q, '\n'), Split(p + r + q, '\n');
    CleanSlice(b, e.start, e.first);
    CleanSlice(b, e.first, e.last + 1);
    CleanSlice(a, e.first, e.afterLast + 1);
    CleanSlice(a, e.afterLast + 1, e.endAfter + 1);
  }

  lemma CleanSlice(ls: seq<string>, i: nat, j: nat)
    requires i <= j <= |ls|
    requires forall k :: 0 <= k < |ls| ==> '\n' !in ls[k]
    ensures CleanBody(Keeps(ls[i..j])) && CleanBody(Removes(ls[i..j])) && CleanBody(Inserts(ls[i..j]))
  {
  }

  /** The newline-free path is not a convenience: the printed diff is readable
      exactly when the path holds no newline. */
  lemma ReadableIffPathClean(path: string, p: string, s: string, r: string, q: string)
    ensures SingleEdit(p + s + q, p + r + q, |p|, |s|, |r|)
    ensures Parse(Print(HunkFor(path, p + s + q, p + r + q, |p|, |s|, |r|))).Some? <==> '\n' !in path
  {
    EditSlices(p, s, r, q);
    BodyClean(path, p, s, r, q);
    var h := HunkFor(path, p + s + q, p + r + q, |p|, |s|, |r|);
    if '\n' in path {
      NewlinePathUnreadable(h);
    } else {
      PrintParses(h);
    }
  }

  // ---- Newline-terminated lines ----

  /** was stands in before at off, and now put in its place gives after. */
  ghost predicate Replaces(before: string, after: string, off: nat, was: string, now: string)
  {
    && off + |was| <= |before| && before[off..off + |was|] == was
    && before[..off] + now + before[off + |was|..] == after
  }

  /** Read as newline-terminated lines, the hunk's old side stands in the old file at the
      start of line oldStart, and its new side put in its place gives the new file. */
  ghost predicate PatchesBytes(h: Hunk, before: string, after: string)
  {
    && 1 <= h.oldStart <= |Split(before, '\n')|
    && Replaces(before, after, LineStart(before, h.oldStart - 1), Unlines(OldSide(h.body)), Unlines(NewSide(h.body)))
  }

  /** Where line i starts, counting from 0. */
  function LineStart(s: string, i: nat): nat
    requires i < |Split(s, '\n')|
  {
    |Unlines(Split(s, '\n')[..i])|
  }

  /** Lines i to j of a text, newline-terminated. */
  function Lines(s: string, i: nat, j: nat): string
    requires i <= j <= |Split(s, '\n')|
  {
    Unlines(Split(s, '\n')[i..j])
  }

  /** The texts agree on the lines before at, and on those from endB and endA on. */
  ghost predicate SameAround(before: string, after: string, at: nat, endB: nat, endA: nat)
  {
    && at <= endB <= |Split(before, '\n')| && at <= endA <= |Split(after, '\n')|
    && Split(before, '\n')[..at] == Split(after, '\n')[..at]
    && Split(before, '\n')[endB..] == Split(after, '\n')[endA..]
  }

  /** The hunk's sides, as bytes, are lines at to endB of one text and at to endA of the other. */
  ghost predicate Sides(h: Hunk, before: string, after: string, at: nat, endB: nat, endA: nat)
  {
    && SameAround(before, after, at, endB, endA) && h.oldStart == at + 1
    && Unlines(OldSide(h.body)) == Lines(before, at, endB) && Unlines(NewSide(h.body)) == Lines(after, at, endA)
  }

  lemma SidesAsBytes(h: Hunk, before: string, after: string)
    requires Addresses(h, Split(before, '\n'), Split(after, '\n'))
    ensures Sides(h, before, after, h.oldStart - 1, h.oldStart - 1 + h.oldCount, h.oldStart - 1 + h.newCount)
  {
    AddressesAround(h, before, after);
    AddressesSides(h, before, after);
  }

  lemma AddressesAround(h: Hunk, before: string, after: string)
    requires Addresses(h, Split(before, '\n'), Split(after, '\n'))
    ensures SameAround(before, after, h.oldStart - 1, h.oldStart - 1 + h.oldCount, h.oldStart - 1 + h.newCount)
  {
  }

  lemma AddressesSides(h: Hunk, before: string, after: string)
    requires Addresses(h, Split(before, '\n'), Split(after, '\n'))
    ensures Unlines(OldSide(h.body)) == Lines(before, h.oldStart - 1, h.oldStart - 1 + h.oldCount)
    ensures Unlines(NewSide(h.body)) == Lines(after, h.oldStart - 1, h.oldStart - 1 + h.newCount)
  {
  }

  lemma SpliceReplaces(head: string, was: string, now: string, tail: string)
    ensures Replaces(head + was + tail, head + now + tail, |head|, was, now)
  {
    var before := head + was + tail;
    assert before[..|head|] == head && before[|head|..|head| + |was|] == was && before[|head| + |was|..] == tail;
  }

  /** Lines i to j of a text, with j not its last, as bytes. */
  lemma BytesOfLines(s: string, i: nat, j: nat)
    requires i <= j < |Split(s, '\n')|
    ensures var l := Split(s, '\n');
      s == Unlines(l[..i]) + Unlines(l[i..j]) + Join(l[j..], '\n')
  {
    var l := Split(s, '\n');
    JoinSplit(s, '\n');
    JoinAt(l, j);
    UnlinesConcat(l[..i], l[i..j]);
    assert l[..j] == l[..i] + l[i..j];
  }

  /** A hunk that stops short of the last Split line patches the bytes. */
  lemma InnerHunkPatches(h: Hunk, before: string, after: string, at: nat, endB: nat, endA: nat)
    requires Sides(h, before, after, at, endB, endA) && endB < |Split(before, '\n')|
    ensures PatchesBytes(h, before, after)
  {
    LinesReplaced(before, after, at, endB, endA, Unlines(OldSide(h.body)), Unlines(NewSide(h.body)));
  }

  /** Lines at to endB of one text are lines at to endA of the other, all else equal. */
  lemma LinesReplaced(before: string, after: string, at: nat, endB: nat, endA: nat, was: string, now: string)
    requires SameAround(before, after, at, endB, endA) && endB < |Split(before, '\n')|
    requires was == Lines(before, at, endB) && now == Lines(after, at, endA)
    ensures Replaces(before, after, LineStart(before, at), was, now)
  {
    var b, a := Split(before, '\n'), Split(after, '\n');
    assert |a| - endA == |b[endB..]| > 0;
    var head, tail := Unlines(b[..at]), Join(b[endB..], '\n');
    BytesOfLines(before, at, endB);
    BytesOfLines(after, at, endA);
    SpliceReplaces(head, was, now, tail);
  }

  /** One that takes the last Split line claims a newline the file does not have. */
  lemma LastLineHunkFails(h: Hunk, before: string, after: string, at: nat, endA: nat)
    requires Sides(h, before, after, at, |Split(before, '\n')|, endA) && at < |Split(before, '\n')|
    ensures !PatchesBytes(h, before, after)
  {
    LastLinesTooLong(before, at);
  }

  lemma LastLinesTooLong(s: string, i: nat)
    requires i < |Split(s, '\n')|
    ensures LineStart(s, i) + |Lines(s, i, |Split(s, '\n')|)| == |s| + 1
  {
    var l := Split(s, '\n');
    JoinSplit(s, '\n');
    JoinAt(l, i);
    assert l[i..|l|] == l[i..];
    UnlinesIsJoin(l[i..]);
  }

  lemma HunkEnd(path: string, p: string, s: string, r: string, q: string)
    ensures SingleEdit(p + s + q, p + r + q, |p|, |s|, |r|)
    ensures var h := HunkFor(path, p + s + q, p + r + q, |p|, |s|, |r|);
      && h.oldCount >= 1
      && (h.oldStart - 1 + h.oldCount < |Split(p + s + q, '\n')| <==> CountChar(q, '\n') >= 4)
  {
    ExtentOfEdit(p, s, r, q);
    ExtentOrdered(p + s + q, p + r + q, |p|, |s|, |r|);
    SplitCount(p + s + q, '\n');
    CountConcat(p + s, q, '\n');
  }

  lemma SidesPatchIff(h: Hunk, before: string, after: string, at: nat, endB: nat, endA: nat)
    requires Sides(h, before, after, at, endB, endA) && at < endB
    ensures PatchesBytes(h, before, after) <==> endB < |Split(before, '\n')|
  {
    if endB < |Split(before, '\n')| {
      InnerHunkPatches(h, before, after, at, endB, endA);
    } else {
      LastLineHunkFails(h, before, after, at, endA);
    }
  }

  /** h is the hunk printed for the edit of before = p+s+q into after = p+r+q. */
  ghost predicate IsHunkOf(h: Hunk, before: string, after: string,
                           path: string, p: string, s: string, r: string, q: string)
  {
    && before == p + s + q && after == p + r + q && SingleEdit(before, after, |p|, |s|, |r|)
    && h == HunkFor(path, before, after, |p|, |s|, |r|)
  }

  ghost predicate Placed(h: Hunk, before: string, after: string)
  {
    && h.oldStart >= 1
    && Sides(h, before, after, h.oldStart - 1, h.oldStart - 1 + h.oldCount, h.oldStart - 1 + h.newCount)
  }

  lemma HunkBytes(h: Hunk, before: string, after: string, path: string, p: string, s: string, r: string, q: string)
    requires IsHunkOf(h, before, after, path, p, s, r, q)
    ensures Placed(h, before, after)
  {
    HunkSides(path, p, s, r, q);
    SidesAsBytes(h, before, after);
  }

  lemma HunkPatchesIff(h: Hunk, before: string, after: string, path: string, p: string, s: string, r: string, q: string)
    requires IsHunkOf(h, before, after, path, p, s, r, q)
    ensures PatchesBytes(h, before, after) <==> CountChar(q, '\n') >= 4
  {
    HunkEnd(path, p, s, r, q);
    HunkBytesIff(h, before, after, path, p, s, r, q);
  }

  lemma HunkBytesIff(h: Hunk, before: string, after: string, path: string, p: string, s: string, r: string, q: string)
    requires IsHunkOf(h, before, after, path, p, s, r, q) && h.oldCount >= 1
    ensures PatchesBytes(h, before, after) <==> h.oldStart - 1 + h.oldCount < |Split(before, '\n')|
  {
    HunkBytes(h, before, after, path, p, s, r, q);
    PlacedPatchIff(h, before, after);
  }

  lemma PlacedPatchIff(h: Hunk, before: string, after: string)
    requires Placed(h, before, after) && h.oldCount >= 1
    ensures PatchesBytes(h, before, after) <==> h.oldStart - 1 + h.oldCount < |Split(before, '\n')|
  {
    SidesPatchIff(h, before, after, h.oldStart - 1, h.oldStart - 1 + h.oldCount, h.oldStart - 1 + h.newCount);
  }

  /** Exactly when the diff is also one of newline-terminated lines: when at least four
      newlines follow the anchor, so that the window stops short of the last Split line. */
  lemma PatchesBytesIff(path: string, p: string, s: string, r: string, q: string)
    ensures SingleEdit(p + s + q, p + r + q, |p|, |s|, |r|)
    ensures PatchesBytes(HunkFor(path, p + s + q, p + r + q, |p|, |s|, |r|), p + s + q, p + r + q)
       <==> CountChar(q, '\n') >= 4
  {
    EditSlices(p, s, r, q);
    HunkPatchesIff(HunkFor(path, p + s + q, p + r + q, |p|, |s|, |r|), p + s + q, p + r + q, path, p, s, r, q);
  }

  /** A one-line file: the hunk claims two lines of it. */
  lemma OneLineFileCountsTwo(path: string)
    ensures SingleEdit("a\n", "b\n", 0, 1, 1) && HunkFor(path, "a\n", "b\n", 0, 1, 1).oldCount == 2
    ensures !PatchesBytes(HunkFor(path, "a\n", "b\n", 0, 1, 1), "a\n", "b\n")
  {
    PatchesBytesIff(path, "", "a", "b", "\n");
    assert "" + "a" + "\n" == "a\n" && "" + "b" + "\n" == "b\n";
    SplitCount("a\n", '\n');
    assert CountChar("\n", '\n') == 1 && CountChar("a\n", '\n') == 1;
    assert "a\n"[..0] == "" && "a\n"[..1] == "a" && "b\n"[..1] == "b";
    assert CountChar("a", '\n') == 0 && CountChar("", '\n') == 0;
  }
}
