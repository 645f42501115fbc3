/** apply_code_patch: the search/replace plan (internal/fsops/run.go,
    computeApplyCodePatch), its write and restore, and the composition that runs a
    verify command after the write and rolls the file back when it fails
    (internal/middleware/dispatcher.go, applyCodePatchWithVerify).

    Everything outside the code is a parameter of the run: how path resolution
    came out, how each file write went, what the verify command streamed and did to
    the workspace, and at which sends the cancelled context won the select. */
module CodePatch {
  import opened Text
  import opened UnifiedDiff

  // ---- Finding the anchor ----

  predicate OccursAt(s: string, sub: string, i: nat)
  {
    i + |sub| <= |s| && s[i..i + |sub|] == sub
  }

  /** strings.Index */
  function Index(s: string, sub: string): (r: Option<nat>)
    ensures r.Some? ==> OccursAt(s, sub, r.value) && forall j :: 0 <= j < r.value ==> !OccursAt(s, sub, j)
    ensures r.None? ==> forall j: nat :: !OccursAt(s, sub, j)
  {
    IndexFrom(s, sub, 0)
  }

  function IndexFrom(s: string, sub: string, i: nat): (r: Option<nat>)
    requires i <= |s|
    ensures r.Some? ==>
      i <= r.value && OccursAt(s, sub, r.value) && forall j :: i <= j < r.value ==> !OccursAt(s, sub, j)
    ensures r.None? ==> forall j: nat :: i <= j ==> !OccursAt(s, sub, j)
    decreases |s| - i
  {
    if OccursAt(s, sub, i) then Some(i) else if i == |s| then None else IndexFrom(s, sub, i + 1)
  }

  /** strings.Count: occurrences that do not overlap, taken from the left. */
  function CountSub(s: string, sub: string): nat
    requires sub != ""
    decreases |s|
  {
    match Index(s, sub)
    case None => 0
    case Some(i) => 1 + CountSub(s[i + |sub|..], sub)
  }

  lemma CountZeroIffAbsent(s: string, sub: string)
    requires sub != ""
    ensures CountSub(s, sub) == 0 <==> forall j: nat :: !OccursAt(s, sub, j)
  {
  }

  lemma OccursInTail(s: string, sub: string, k: nat, j: nat)
    requires k <= |s|
    ensures OccursAt(s[k..], sub, j) <==> OccursAt(s, sub, k + j)
  {
  }

  /** A first occurrence, and none that starts after it ends.  Occurrences that
      overlap the first one do not count against it. */
  ghost predicate SoleAnchor(s: string, sub: string, i: nat)
  {
    && OccursAt(s, sub, i)
    && (forall j :: 0 <= j < i ==> !OccursAt(s, sub, j))
    && (forall j: nat :: i + |sub| <= j ==> !OccursAt(s, sub, j))
  }

  lemma AbsentFromTail(s: string, sub: string, k: nat)
    requires k <= |s|
    ensures (forall j: nat :: !OccursAt(s[k..], sub, j)) <==> (forall j: nat :: k <= j ==> !OccursAt(s, sub, j))
  {
    if forall j: nat :: !OccursAt(s[k..], sub, j) {
      forall j: nat | k <= j ensures !OccursAt(s, sub, j) { OccursInTail(s, sub, k, j - k); }
    } else {
      var j: nat :| OccursAt(s[k..], sub, j);
      OccursInTail(s, sub, k, j);
      assert k <= k + j && OccursAt(s, sub, k + j);
    }
  }

  /** The code's uniqueness test, said without counting. */
  lemma CountOneIffSoleAnchor(s: string, sub: string)
    requires sub != ""
    ensures CountSub(s, sub) == 1 <==> Index(s, sub).Some? && SoleAnchor(s, sub, Index(s, sub).value)
  {
    if Index(s, sub).Some? {
      var k := Index(s, sub).value + |sub|;
      CountZeroIffAbsent(s[k..], sub);
      AbsentFromTail(s, sub, k);
    }
  }

  // ---- The plan ----

  datatype Arg = Str(s: string) | NotAString

  datatype PatchError =
    | BadArgument(key: string) | PathEscape | NotFound | ReadFailed
    | AnchorMissing | AnchorNotUnique(count: nat) | TooLarge(limit: nat) | OpenFailed | WriteFailed

  datatype Plan = Plan(
    resolved: string, path: string, original: string, newContent: string, lineNumber: nat, unifiedDiff: string)

  datatype Node = File(bytes: string) | Directory

  const DEFAULT_MAX_BYTES: nat := 4 * 1024 * 1024

  /** argString: present, a string, not empty. */
  function ArgString(args: map<string, Arg>, key: string): Result<string, PatchError>
  {
    if key !in args || !args[key].Str? || args[key].s == "" then Err(BadArgument(key)) else Ok(args[key].s)
  }

  /** argStringAllowEmpty */
  function ArgStringAllowEmpty(args: map<string, Arg>, key: string): Result<string, PatchError>
  {
    if key !in args || !args[key].Str? then Err(BadArgument(key)) else Ok(args[key].s)
  }

  /** The configured limit, or 4 MiB. */
  function MaxBytes(limit: int): (n: nat)
    ensures limit > 0 ==> n == limit
    ensures limit <= 0 ==> n == 4194304
  {
    if limit > 0 then limit else DEFAULT_MAX_BYTES
  }

  lemma SpliceIsEdit(content: string, idx: nat, searchLen: nat, replace: string)
    requires idx + searchLen <= |content|
    ensures SingleEdit(content, content[..idx] + replace + content[idx + searchLen..], idx, searchLen, |replace|)
  {
  }

  /** computeApplyCodePatch.  `resolve` is the outcome of resolveSafe on the path. */
  function ComputePatch(files: map<string, Node>, args: map<string, Arg>, resolve: Option<string>, limit: int)
    : (r: Result<Plan, PatchError>)
  {
    var pathArg := ArgString(args, "file_path");
    if pathArg.Err? then Err(pathArg.error) else
    var searchArg := ArgString(args, "search_string");
    if searchArg.Err? then Err(searchArg.error) else
    var replaceArg := ArgStringAllowEmpty(args, "replace_string");
    if replaceArg.Err? then Err(replaceArg.error) else
    if resolve.None? then Err(PathEscape) else
    if resolve.value !in files then Err(NotFound) else
    if files[resolve.value].Directory? then Err(ReadFailed) else
    var content := files[resolve.value].bytes;
    var search, replace := searchArg.value, replaceArg.value;
    var count := CountSub(content, search);
    if count == 0 then Err(AnchorMissing) else
    if count > 1 then Err(AnchorNotUnique(count)) else
    var idx := Index(content, search).value;
    var plan := PlanAt(resolve.value, pathArg.value, content, search, replace, idx);
    if |plan.newContent| > MaxBytes(limit) then Err(TooLarge(MaxBytes(limit))) else Ok(plan)
  }

  function PlanAt(resolved: string, path: string, content: string, search: string, replace: string, idx: nat): Plan
    requires OccursAt(content, search, idx)
  {
    SpliceIsEdit(content, idx, |search|, replace);
    var newContent := content[..idx] + replace + content[idx + |search|..];
    Plan(resolved, path, content, newContent, 1 + CountChar(content[..idx], '\n'),
         Print(HunkFor(path, content, newContent, idx, |search|, |replace|)))
  }

  /** Every argument is a string, and only the replacement may be empty. */
  predicate GoodArg(args: map<string, Arg>, key: string)
  {
    key in args && args[key].Str? && (args[key].s == "" ==> key == "replace_string")
  }

  predicate ArgsOk(args: map<string, Arg>)
  {
    GoodArg(args, "file_path") && GoodArg(args, "search_string") && GoodArg(args, "replace_string")
  }

  /** A plan exists exactly when the arguments are strings, the path resolves to a
      file, the anchor is sole and the result fits. */
  ghost predicate Plannable(files: map<string, Node>, args: map<string, Arg>, resolve: Option<string>, limit: int)
  {
    && ArgsOk(args) && resolve.Some? && resolve.value in files && files[resolve.value].File?
    && var content, search := files[resolve.value].bytes, args["search_string"].s;
       && (exists i: nat :: SoleAnchor(content, search, i))
       && |content| - |search| + |args["replace_string"].s| <= MaxBytes(limit)
  }

  lemma SoleAnchorIsIndex(s: string, sub: string, i: nat)
    requires SoleAnchor(s, sub, i)
    ensures Index(s, sub) == Some(i)
  {
  }

  lemma PlanIff(files: map<string, Node>, args: map<string, Arg>, resolve: Option<string>, limit: int)
    ensures ComputePatch(files, args, resolve, limit).Ok? <==> Plannable(files, args, resolve, limit)
  {
    if ArgString(args, "file_path").Ok? && ArgString(args, "search_string").Ok?
       && ArgStringAllowEmpty(args, "replace_string").Ok?
       && resolve.Some? && resolve.value in files && files[resolve.value].File? {
      var content, search := files[resolve.value].bytes, args["search_string"].s;
      CountOneIffSoleAnchor(content, search);
      if i: nat :| SoleAnchor(content, search, i) { SoleAnchorIsIndex(content, search, i); }
    }
  }

  /** The diff, read back and applied to the old lines, gives exactly the new content. */
  ghost predicate DiffMeans(diff: string, original: string, newContent: string)
  {
    && Parse(diff).Some?
    && var applied := ApplyHunk(Split(original, '\n'), Parse(diff).value);
       applied.Some? && Join(applied.value, '\n') == newContent
  }

  /** The file is p + search + q and becomes p + replace + q; the line number is the
      line the anchor starts on; the shown diff means that change. */
  ghost predicate Faithful(plan: Plan, search: string, replace: string, p: string, q: string)
  {
    && plan.original == p + search + q && SoleAnchor(plan.original, search, |p|)
    && plan.newContent == p + replace + q
    && plan.lineNumber == |Split(p, '\n')|
    && ('\n' !in plan.path ==> DiffMeans(plan.unifiedDiff, plan.original, plan.newContent))
  }

  lemma DiffShownIsMeant(path: string, p: string, s: string, r: string, q: string)
    requires '\n' !in path
    ensures SingleEdit(p + s + q, p + r + q, |p|, |s|, |r|)
    ensures DiffMeans(Print(HunkFor(path, p + s + q, p + r + q, |p|, |s|, |r|)), p + s + q, p + r + q)
  {
    DiffTurnsBeforeIntoAfter(path, p, s, r, q);
    JoinSplit(p + r + q, '\n');
  }

  lemma SpliceFaithful(resolved: string, path: string, content: string, search: string, replace: string, idx: nat)
    requires SoleAnchor(content, search, idx)
    ensures Faithful(PlanAt(resolved, path, content, search, replace, idx), search, replace,
                     content[..idx], content[idx + |search|..])
  {
    var p, q := content[..idx], content[idx + |search|..];
    assert content == p + search + q;
    SplitCount(p, '\n');
    if '\n' !in path {
      DiffShownIsMeant(path, p, search, replace, q);
    }
  }

  /** What the operator is shown and what is written agree. */
  lemma PlanSound(files: map<string, Node>, args: map<string, Arg>, resolve: Option<string>, limit: int)
    requires ComputePatch(files, args, resolve, limit).Ok?
    ensures var plan := ComputePatch(files, args, resolve, limit).value;
      && resolve == Some(plan.resolved) && plan.resolved in files && files[plan.resolved] == File(plan.original)
      && plan.path == args["file_path"].s
      && |plan.newContent| <= MaxBytes(limit)
      && exists p: string, q: string :: Faithful(plan, args["search_string"].s, args["replace_string"].s, p, q)
  {
    var content := files[resolve.value].bytes;
    var search, replace := args["search_string"].s, args["replace_string"].s;
    CountOneIffSoleAnchor(content, search);
    SpliceFaithful(resolve.value, args["file_path"].s, content, search, replace, Index(content, search).value);
  }

  /** Why there is no plan, each reason with its own condition. */
  ghost predicate Because(e: PatchError, files: map<string, Node>, args: map<string, Arg>,
                          resolve: Option<string>, limit: int)
  {
    if !ArgsOk(args) then
      e.BadArgument? && e.key in {"file_path", "search_string", "replace_string"} && !GoodArg(args, e.key)
    else if resolve.None? then e == PathEscape
    else if resolve.value !in files then e == NotFound
    else if files[resolve.value].Directory? then e == ReadFailed
    else
      var content, search := files[resolve.value].bytes, args["search_string"].s;
      if forall i: nat :: !OccursAt(content, search, i) then e == AnchorMissing
      else if forall i: nat :: !SoleAnchor(content, search, i) then e.AnchorNotUnique? && e.count >= 2
      else e == TooLarge(MaxBytes(limit)) && |content| - |search| + |args["replace_string"].s| > MaxBytes(limit)
  }

  lemma RefusedBecause(files: map<string, Node>, args: map<string, Arg>, resolve: Option<string>, limit: int)
    requires ComputePatch(files, args, resolve, limit).Err?
    ensures Because(ComputePatch(files, args, resolve, limit).error, files, args, resolve, limit)
  {
    if ArgsOk(args) && resolve.Some? && resolve.value in files && files[resolve.value].File? {
      var content, search := files[resolve.value].bytes, args["search_string"].s;
      CountZeroIffAbsent(content, search);
      CountOneIffSoleAnchor(content, search);
    }
  }

  // ---- Writing, and rolling back ----

  /** How one open-truncate-write went. */
  datatype WriteOutcome = Written | NotOpened | Partial(n: nat)

  function WriteFile(files: map<string, Node>, name: string, content: string, io: WriteOutcome): map<string, Node>
  {
    match io
    case Written => files[name := File(content)]
    case NotOpened => files
    case Partial(n) => files[name := File(if n <= |content| then content[..n] else content)]
  }

  /** A write touches the named file and no other: it then holds the content, or a prefix of it,
      or is as it was when the open failed. */
  lemma WriteTouchesOne(files: map<string, Node>, name: string, content: string, io: WriteOutcome)
    ensures var after := WriteFile(files, name, content, io);
      && after.Keys <= files.Keys + {name} && files.Keys <= after.Keys
      && (forall other :: other in files && other != name ==> after[other] == files[other])
      && (io.NotOpened? ==> after == files)
      && (!io.NotOpened? ==> name in after && after[name].File? && after[name].bytes <= content)
      && (io.Written? ==> after[name].bytes == content)
      && (io.Partial? ==> |after[name].bytes| == if io.n <= |content| then io.n else |content|)
  {
  }

  predicate HasFile(files: map<string, Node>, name: string) { name in files && files[name].File? }

  /** The restoring open neither creates a file nor opens a directory. */
  function Reopened(files: map<string, Node>, name: string, io: WriteOutcome): WriteOutcome
  {
    if HasFile(files, name) then io else NotOpened
  }

  /** What RestoreFile leaves of a workspace. */
  function Restored(files: map<string, Node>, plan: Plan, io: WriteOutcome): map<string, Node>
  {
    WriteFile(files, plan.resolved, plan.original, Reopened(files, plan.resolved, io))
  }

  /** The file holds its original bytes. */
  predicate HoldsOriginal(files: map<string, Node>, plan: Plan)
  {
    HasFile(files, plan.resolved) && files[plan.resolved].bytes == plan.original
  }

  /** With a working write a roll back brings the bytes back if and only if the verify
      command left a file to write to. */
  lemma RollBackWorksIff(files: map<string, Node>, plan: Plan)
    ensures HoldsOriginal(Restored(files, plan, Written), plan) <==> HasFile(files, plan.resolved)
  {
  }

  datatype Chunk = Stdout(data: string) | Stderr(data: string) | Exit(code: int, err: Option<string>)

  predicate Clean(c: Chunk) { c == Exit(0, None) }

  /** The verify command as the sandbox runner shows it: it may fail to start, and
      when it starts it streams chunks while the workspace changes under it. */
  datatype VerifyRun =
    | NotStarted(err: string)
    | Ran(chunks: seq<Chunk>, worlds: seq<map<string, Node>>)

  /** One world per point of the stream: before the first chunk, and after each. */
  predicate ValidRun(v: VerifyRun) { v.Ran? ==> |v.worlds| == |v.chunks| + 1 }

  function DataOf(out: seq<Chunk>, stdout: bool): string
  {
    if out == [] then ""
    else
      var head := if (stdout && out[0].Stdout?) || (!stdout && out[0].Stderr?) then out[0].data else "";
      head + DataOf(out[1..], stdout)
  }

  lemma {:induction false} DataConcat(a: seq<Chunk>, b: seq<Chunk>, stdout: bool)
    ensures DataOf(a + b, stdout) == DataOf(a, stdout) + DataOf(b, stdout)
  {
    if a == [] {
      assert a + b == b;
    } else {
      assert (a + b)[1..] == a[1..] + b;
      DataConcat(a[1..], b, stdout);
    }
  }

  lemma DataOne(a: seq<Chunk>, c: Chunk, stdout: bool)
    ensures DataOf(a + [c], stdout)
         == DataOf(a, stdout) + (if (stdout && c.Stdout?) || (!stdout && c.Stderr?) then c.data else "")
  {
    DataConcat(a, [c], stdout);
    assert [c][1..] == [];
  }

  ghost predicate NoExit(out: seq<Chunk>) { forall i :: 0 <= i < |out| ==> !out[i].Exit? }

  /** The runner contract on the composed stream: exactly one exit chunk, the last one. */
  ghost predicate OneExitLast(out: seq<Chunk>)
  {
    |out| >= 1 && out[|out| - 1].Exit? && NoExit(out[..|out| - 1])
  }

  const CHUNK_BYTES: nat := 16 * 1024

  /** The cancelled context wins at one of the sends of the body. */
  ghost predicate BodyCut(body: string, cut: set<nat>) { exists k :: k in cut && k * 16384 < |body| }

  /** Slices the apply result onto stdout.  `cut` holds the sends at which the
      cancelled context won. */
  method EmitBody(body: string, cut: set<nat>) returns (out: seq<Chunk>, canceled: bool)
    ensures NoExit(out) && (canceled <==> BodyCut(body, cut))
    ensures !canceled ==> DataOf(out, true) == body
    ensures DataOf(out, true) <= body && DataOf(out, false) == ""
    ensures forall i :: 0 <= i < |out| ==> out[i].Stdout? && |out[i].data| <= 16384
  {
    out := [];
    canceled := false;
    var off := 0;
    while off < |body|
      invariant 0 <= off <= |body| && !canceled
      invariant if off < |body| then off == |out| * CHUNK_BYTES else |body| <= |out| * CHUNK_BYTES
      invariant forall k :: 0 <= k < |out| ==> k !in cut
      invariant NoExit(out) && DataOf(out, true) == body[..off] && DataOf(out, false) == ""
      invariant forall i :: 0 <= i < |out| ==> out[i].Stdout? && |out[i].data| <= CHUNK_BYTES
    {
      var end := off + CHUNK_BYTES;
      if end > |body| { end := |body|; }
      if |out| in cut { return out, true; }
      DataOne(out, Stdout(body[off..end]), true);
      DataOne(out, Stdout(body[off..end]), false);
      assert body[..end] == body[..off] + body[off..end];
      out := out + [Stdout(body[off..end])];
      off := end;
    }
    assert body[..|body|] == body;
  }

  /** The last exit chunk of a stream, if any: the one the forwarding loop keeps. */
  function LastExit(chunks: seq<Chunk>): Option<Chunk>
  {
    if chunks == [] then None
    else if chunks[|chunks| - 1].Exit? then Some(chunks[|chunks| - 1])
    else LastExit(chunks[..|chunks| - 1])
  }

  /** What is forwarded of a stream: everything but its exit chunks. */
  function Forwarded(chunks: seq<Chunk>): seq<Chunk>
  {
    if chunks == [] then []
    else Forwarded(chunks[..|chunks| - 1]) + if chunks[|chunks| - 1].Exit? then [] else [chunks[|chunks| - 1]]
  }

  /** Forwarding stops at the first send the cancelled context wins, or at the end. */
  ghost predicate StopsAt(chunks: seq<Chunk>, cut: set<nat>, n: nat)
  {
    && n <= |chunks| && (n < |chunks| ==> !chunks[n].Exit? && n in cut)
    && forall k :: 0 <= k < n ==> chunks[k].Exit? || k !in cut
  }

  /** Forwards the verify command's output, holding its exit chunk back. */
  method StreamVerify(chunks: seq<Chunk>, cut: set<nat>)
    returns (out: seq<Chunk>, exit: Option<Chunk>, canceled: bool, seen: nat)
    ensures StopsAt(chunks, cut, seen) && (canceled <==> seen < |chunks|)
    ensures out == Forwarded(chunks[..seen]) && exit == LastExit(chunks[..seen])
    ensures !canceled ==> out == Forwarded(chunks) && exit == LastExit(chunks)
  {
    out, exit, canceled, seen := [], None, false, 0;
    while seen < |chunks|
      invariant seen <= |chunks| && !canceled
      invariant forall k :: 0 <= k < seen ==> chunks[k].Exit? || k !in cut
      invariant out == Forwarded(chunks[..seen]) && exit == LastExit(chunks[..seen])
    {
      var c := chunks[seen];
      assert chunks[..seen + 1][..seen] == chunks[..seen];
      if c.Exit? {
        exit := Some(c);
      } else {
        if seen in cut { return out, exit, true, seen; }
        out := out + [c];
      }
      seen := seen + 1;
    }
    assert chunks[..|chunks|] == chunks;
  }

  ghost predicate SameData(a: seq<Chunk>, b: seq<Chunk>)
  {
    DataOf(a, true) == DataOf(b, true) && DataOf(a, false) == DataOf(b, false)
  }

  /** Nothing the verify command printed is lost or invented, and no exit chunk gets through. */
  lemma {:induction false} ForwardedData(chunks: seq<Chunk>)
    ensures SameData(Forwarded(chunks), chunks) && NoExit(Forwarded(chunks))
    ensures LastExit(chunks).Some? ==> LastExit(chunks).value.Exit?
  {
    if chunks == [] {
    } else {
      var init, c := chunks[..|chunks| - 1], chunks[|chunks| - 1];
      ForwardedData(init);
      assert chunks == init + [c];
      assert Forwarded(chunks) == if c.Exit? then Forwarded(init) else Forwarded(init) + [c];
      forall stdout: bool ensures DataOf(Forwarded(chunks), stdout) == DataOf(chunks, stdout) {
        DataOne(init, c, stdout);
        DataOne(Forwarded(init), c, stdout);
      }
    }
  }

  /** What the operator reads when a patch is taken back; the source does not look at how the
      restore went when the stream had no exit chunk or was cancelled. */
  datatype Note = NoNote | Unchecked(text: string) | Checked(text: string)

  function NoteChunks(note: Note, path: string, restored: bool): seq<Chunk>
  {
    match note
    case NoNote => []
    case Unchecked(text) => [Stderr(text + "; rolled back " + path)]
    case Checked(text) => [Stderr(text + if restored then "; rolled back " + path else "; rollback ALSO failed")]
  }

  /** The stream that a roll back makes of what was sent before. */
  ghost predicate Closes(out: seq<Chunk>, sent: seq<Chunk>, exit: Chunk)
  {
    && OneExitLast(out) && out[|out| - 1] == exit && sent <= out
    && DataOf(out, true) == DataOf(sent, true) && DataOf(sent, false) <= DataOf(out, false)
  }

  lemma NotedCloses(sent: seq<Chunk>, note: Note, path: string, restored: bool, exit: Chunk)
    requires NoExit(sent) && exit.Exit?
    ensures Closes(sent + NoteChunks(note, path, restored) + [exit], sent, exit)
  {
    var notes := NoteChunks(note, path, restored);
    var out := sent + notes + [exit];
    assert out[..|out| - 1] == sent + notes;
    forall stdout: bool ensures DataOf(out, stdout) == DataOf(sent, stdout) + DataOf(notes, stdout) {
      DataOne(sent + notes, exit, stdout);
      DataConcat(sent, notes, stdout);
    }
    assert DataOf(notes, true) == "";
  }

  lemma CleanCloses(sent: seq<Chunk>, exit: Chunk)
    requires NoExit(sent) && exit.Exit?
    ensures Closes(sent + [exit], sent, exit) && DataOf(sent + [exit], false) == DataOf(sent, false)
  {
    assert (sent + [exit])[..|sent|] == sent;
    DataOne(sent, exit, true);
    DataOne(sent, exit, false);
  }

  lemma SentData(sent: seq<Chunk>, streamed: seq<Chunk>)
    ensures DataOf(sent + streamed, true) == DataOf(sent, true) + DataOf(streamed, true)
    ensures DataOf(sent + streamed, false) == DataOf(sent, false) + DataOf(streamed, false)
  {
    DataConcat(sent, streamed, true);
    DataConcat(sent, streamed, false);
  }

  lemma StopsOnce(chunks: seq<Chunk>, cut: set<nat>, n: nat)
    requires StopsAt(chunks, cut, n)
    ensures StopsAt(chunks, cut, |chunks|) <==> n == |chunks|
  {
  }

  const CANCELED := Exit(-1, Some("context canceled"))
  const NO_EXIT := Exit(-1, Some("verify_command: runner closed without exit chunk"))

  function OrEmpty(body: Option<string>): string { if body.Some? then body.value else "" }

  /** The verify command started, and the context was not cancelled at any send. */
  ghost predicate Undisturbed(body: Option<string>, verify: VerifyRun, cutBody: set<nat>, cutVerify: set<nat>)
  {
    !BodyCut(OrEmpty(body), cutBody) && verify.Ran? && StopsAt(verify.chunks, cutVerify, |verify.chunks|)
  }

  /** The exit chunk of the composed stream: the verify command's own, or the reason there is none. */
  ghost predicate Ending(exit: Chunk, body: Option<string>, verify: VerifyRun, cutBody: set<nat>, cutVerify: set<nat>)
  {
    if BodyCut(OrEmpty(body), cutBody) then exit == CANCELED
    else if verify.NotStarted? then exit == Exit(-1, Some(verify.err))
    else if !StopsAt(verify.chunks, cutVerify, |verify.chunks|) then exit == CANCELED
    else exit == if LastExit(verify.chunks).None? then NO_EXIT else LastExit(verify.chunks).value
  }

  /** The workspace when the stream ends: as patched while the verify command has not started,
      afterwards as that command left it at the chunk where forwarding stopped. */
  ghost predicate AtEnd(world: map<string, Node>, patched: map<string, Node>, body: Option<string>, verify: VerifyRun,
                        cutBody: set<nat>, cutVerify: set<nat>)
    requires ValidRun(verify)
  {
    if BodyCut(OrEmpty(body), cutBody) || verify.NotStarted? then world == patched
    else exists n: nat :: StopsAt(verify.chunks, cutVerify, n) && world == verify.worlds[n]
  }

  class Workspace {
    var files: map<string, Node>
    /** How many times RestoreFile ran. */
    ghost var restores: nat

    /** applyCodePatchInner: re-plans against the file as it is now, then truncates and writes. */
    method ApplyPatch(args: map<string, Arg>, resolve: Option<string>, limit: int, io: WriteOutcome)
      returns (r: Result<Plan, PatchError>)
      modifies this`files
      ensures var plan := ComputePatch(old(files), args, resolve, limit);
        && (plan.Err? ==> r == plan && files == old(files))
        && (plan.Ok? ==> files == WriteFile(old(files), plan.value.resolved, plan.value.newContent, io))
        && (plan.Ok? && io.Written? ==> r == plan)
        && (plan.Ok? && io.NotOpened? ==> r == Err(OpenFailed))
        && (plan.Ok? && io.Partial? ==> r == Err(WriteFailed))
    {
      r := ComputePatch(files, args, resolve, limit);
      if r.Ok? {
        files := WriteFile(files, r.value.resolved, r.value.newContent, io);
        r := match io case Written => r case NotOpened => Err(OpenFailed) case Partial(_) => Err(WriteFailed);
      }
    }

    /** RestoreFile: a failed scope check ends in NotOpened, and so does a missing file. */
    method RestoreFile(plan: Plan, io: WriteOutcome) returns (ok: bool)
      modifies this
      ensures files == Restored(old(files), plan, io) && restores == old(restores) + 1
      ensures ok <==> io.Written? && HasFile(old(files), plan.resolved)
      ensures ok ==> HoldsOriginal(files, plan)
    {
      var outcome := Reopened(files, plan.resolved, io);
      files := WriteFile(files, plan.resolved, plan.original, outcome);
      restores := restores + 1;
      ok := outcome.Written?;
    }

    /** Every failing exit of the composition: restore, say so on stderr, then the exit chunk. */
    method RollBack(plan: Plan, sent: seq<Chunk>, note: Note, exit: Chunk, io: WriteOutcome)
      returns (out: seq<Chunk>)
      requires NoExit(sent) && exit.Exit? && !Clean(exit)
      modifies this
      ensures Closes(out, sent, exit)
      ensures files == Restored(old(files), plan, io) && restores == old(restores) + 1
      // what the operator is told of it
      ensures note.NoNote? ==> |out| == |sent| + 1
      ensures note.Unchecked? ==> |out| == |sent| + 2 && out[|sent|] == Stderr(note.text + "; rolled back " + plan.path)
      ensures note.Checked? ==>
        && |out| == |sent| + 2
        && out[|sent|] == if io.Written? && HasFile(old(files), plan.resolved)
                          then Stderr(note.text + "; rolled back " + plan.path)
                          else Stderr(note.text + "; rollback ALSO failed")
    {
      var ok := RestoreFile(plan, io);
      NotedCloses(sent, note, plan.path, ok, exit);
      out := sent + NoteChunks(note, plan.path, ok) + [exit];
    }

    /** The goroutine of applyCodePatchWithVerify, after the patch was written. */
    method VerifyOrRollBack(plan: Plan, body: Option<string>, verify: VerifyRun, restoreIo: WriteOutcome,
                            cutBody: set<nat>, cutVerify: set<nat>)
      returns (out: seq<Chunk>, ghost world: map<string, Node>)
      requires ValidRun(verify)
      modifies this
      ensures OneExitLast(out) && Ending(out[|out| - 1], body, verify, cutBody, cutVerify)
      // the patch is kept exactly on a clean exit of an undisturbed run
      ensures Clean(out[|out| - 1]) <==>
        Undisturbed(body, verify, cutBody, cutVerify) && LastExit(verify.chunks) == Some(Exit(0, None))
      // world is the workspace at the end: as patched, or as the verify command left it
      ensures AtEnd(world, old(files), body, verify, cutBody, cutVerify)
      ensures if Clean(out[|out| - 1]) then restores == old(restores) && files == world
              else restores == old(restores) + 1 && files == Restored(world, plan, restoreIo)
      // an undisturbed run forwards every byte, however it ends
      ensures Undisturbed(body, verify, cutBody, cutVerify) ==>
        && DataOf(out, true) == OrEmpty(body) + DataOf(verify.chunks, true)
        && DataOf(verify.chunks, false) <= DataOf(out, false)
      ensures Clean(out[|out| - 1]) ==> DataOf(out, false) == DataOf(verify.chunks, false)
    {
      out, world := [], files;
      if body.Some? {
        var canceled;
        out, canceled := EmitBody(body.value, cutBody);
        if canceled {
          out := RollBack(plan, out, NoNote, CANCELED, restoreIo);
          return;
        }
      }
      if verify.NotStarted? {
        out := RollBack(plan, out, Checked("verify_command dispatch failed"), Exit(-1, Some(verify.err)), restoreIo);
        return;
      }
      ghost var stop;
      out, stop := RunVerify(plan, out, verify, restoreIo, cutVerify);
      world := verify.worlds[stop];
      StopsOnce(verify.chunks, cutVerify, stop);
    }

    /** The verify command's own stream, and what is made of its end. */
    method RunVerify(plan: Plan, sent: seq<Chunk>, verify: VerifyRun, restoreIo: WriteOutcome, cutVerify: set<nat>)
      returns (out: seq<Chunk>, ghost stop: nat)
      requires verify.Ran? && ValidRun(verify) && NoExit(sent)
      modifies this
      ensures OneExitLast(out) && StopsAt(verify.chunks, cutVerify, stop)
      ensures out[|out| - 1] == if stop < |verify.chunks| then CANCELED
                                else if LastExit(verify.chunks).None? then NO_EXIT else LastExit(verify.chunks).value
      ensures if Clean(out[|out| - 1]) then restores == old(restores) && files == verify.worlds[stop]
              else restores == old(restores) + 1 && files == Restored(verify.worlds[stop], plan, restoreIo)
      ensures stop == |verify.chunks| ==>
        && DataOf(out, true) == DataOf(sent, true) + DataOf(verify.chunks, true)
        && DataOf(sent, false) + DataOf(verify.chunks, false) <= DataOf(out, false)
      ensures Clean(out[|out| - 1]) ==> DataOf(out, false) == DataOf(sent, false) + DataOf(verify.chunks, false)
    {
      var streamed, exit, stopped, seen := StreamVerify(verify.chunks, cutVerify);
      files, stop := verify.worlds[seen], seen;
      ForwardedData(verify.chunks[..seen]);
      SentData(sent, streamed);
      out := Conclude(plan, sent + streamed, exit, stopped, restoreIo);
      assert !stopped ==> verify.chunks[..seen] == verify.chunks;
    }

    /** Its last part: keep the patch on a clean exit, roll it back on anything else. */
    method Conclude(plan: Plan, sent: seq<Chunk>, exit: Option<Chunk>, stopped: bool, restoreIo: WriteOutcome)
      returns (out: seq<Chunk>)
      requires NoExit(sent) && (exit.Some? ==> exit.value.Exit?)
      modifies this
      ensures Closes(out, sent, if stopped then CANCELED else if exit.None? then NO_EXIT else exit.value)
      ensures Clean(out[|out| - 1]) <==> !stopped && exit == Some(Exit(0, None))
      ensures Clean(out[|out| - 1]) ==>
        && out == sent + [Exit(0, None)] && DataOf(out, false) == DataOf(sent, false)
        && files == old(files) && restores == old(restores)
      ensures !Clean(out[|out| - 1]) ==> files == Restored(old(files), plan, restoreIo) && restores == old(restores) + 1
    {
      if stopped {
        out := RollBack(plan, sent, NoNote, CANCELED, restoreIo);
      } else if exit.None? {
        out := RollBack(plan, sent, Unchecked("verify_command runner closed without exit"), NO_EXIT, restoreIo);
      } else if exit.value.err.Some? || exit.value.code != 0 {
        out := RollBack(plan, sent, Checked("verify_command failed"), exit.value, restoreIo);
      } else {
        out := sent + [exit.value];
        CleanCloses(sent, exit.value);
      }
    }

    /** applyCodePatchWithVerify, run to the end of its stream. */
    method ApplyWithVerify(args: map<string, Arg>, resolve: Option<string>, limit: int,
                           encode: Plan -> Option<string>, verify: VerifyRun,
                           applyIo: WriteOutcome, restoreIo: WriteOutcome,
                           cutBody: set<nat>, cutVerify: set<nat>)
      returns (out: seq<Chunk>, ghost world: map<string, Node>)
      requires ValidRun(verify)
      modifies this
      // the composed stream honours the runner contract, whatever the verify command streamed
      ensures OneExitLast(out)
      // no plan: nothing was touched
      ensures ComputePatch(old(files), args, resolve, limit).Err? ==>
        !Clean(out[|out| - 1]) && files == old(files) && restores == old(restores)
      // the patch could not be written: what the write left stays, and nothing is restored
      ensures ComputePatch(old(files), args, resolve, limit).Ok? && !applyIo.Written? ==>
        var plan := ComputePatch(old(files), args, resolve, limit).value;
        && !Clean(out[|out| - 1]) && restores == old(restores)
        && files == WriteFile(old(files), plan.resolved, plan.newContent, applyIo)
      // written: the patch is kept exactly on a clean exit of an undisturbed run
      ensures ComputePatch(old(files), args, resolve, limit).Ok? && applyIo.Written? ==>
        var plan := ComputePatch(old(files), args, resolve, limit).value;
        && Ending(out[|out| - 1], encode(plan), verify, cutBody, cutVerify)
        && (Clean(out[|out| - 1]) <==> Undisturbed(encode(plan), verify, cutBody, cutVerify)
                                       && LastExit(verify.chunks) == Some(Exit(0, None)))
        && (Undisturbed(encode(plan), verify, cutBody, cutVerify) ==>
              && DataOf(out, true) == OrEmpty(encode(plan)) + DataOf(verify.chunks, true)
              && DataOf(verify.chunks, false) <= DataOf(out, false))
      // written but not clean: one restore, on the workspace as patched or as the verify command left it
      ensures ComputePatch(old(files), args, resolve, limit).Ok? && applyIo.Written? && !Clean(out[|out| - 1]) ==>
        var plan := ComputePatch(old(files), args, resolve, limit).value;
        && restores == old(restores) + 1 && files == Restored(world, plan, restoreIo)
        && AtEnd(world, WriteFile(old(files), plan.resolved, plan.newContent, Written),
                 encode(plan), verify, cutBody, cutVerify)
        && (restoreIo.Written? ==> (HoldsOriginal(files, plan) <==> HasFile(world, plan.resolved)))
      // clean: the patch was written, the verify command exited 0, nothing was rolled back,
      // and no byte of output was lost
      ensures Clean(out[|out| - 1]) ==>
        && ComputePatch(old(files), args, resolve, limit).Ok? && applyIo.Written?
        && restores == old(restores)
        && verify.Ran? && LastExit(verify.chunks) == Some(Exit(0, None))
        && files == verify.worlds[|verify.chunks|]
        && var body := encode(ComputePatch(old(files), args, resolve, limit).value);
           && DataOf(out, true) == (if body.Some? then body.value else "") + DataOf(verify.chunks, true)
           && DataOf(out, false) == DataOf(verify.chunks, false)
    {
      var applied := ApplyPatch(args, resolve, limit, applyIo);
      if applied.Err? {
        return [Exit(-1, Some("apply failed"))], files;
      }
      out, world := VerifyOrRollBack(applied.value, encode(applied.value), verify, restoreIo, cutBody, cutVerify);
      RollBackWorksIff(world, applied.value);
    }
  }

  /** The hole in "nothing was written, so no rollback": a write that fails after the
      truncating open leaves a prefix of the new content, and the error path does not
      restore it. A failed open keeps the file; a write that fails at once never does;
      and some failing write can leave the original behind if and only if the file from
      the anchor on is a prefix of its replacement. */
  lemma FailedWriteKeepsOriginalIff(files: map<string, Node>, args: map<string, Arg>,
                                    resolve: Option<string>, limit: int, p: string, q: string)
    requires ComputePatch(files, args, resolve, limit).Ok?
    requires files[resolve.value].bytes == p + args["search_string"].s + q
    requires SoleAnchor(files[resolve.value].bytes, args["search_string"].s, |p|)
    ensures var plan := ComputePatch(files, args, resolve, limit).value;
      && HoldsOriginal(WriteFile(files, plan.resolved, plan.newContent, NotOpened), plan)
      && !HoldsOriginal(WriteFile(files, plan.resolved, plan.newContent, Partial(0)), plan)
      && ((exists n: nat :: HoldsOriginal(WriteFile(files, plan.resolved, plan.newContent, Partial(n)), plan))
          <==> args["search_string"].s + q <= args["replace_string"].s + q)
  {
    var plan := ComputePatch(files, args, resolve, limit).value;
    var search, replace := args["search_string"].s, args["replace_string"].s;
    PlanText(files, args, resolve, limit, p, q);
    PartialKeepsIff(files, plan);
    PrefixBehind(p, search + q, replace + q);
  }

  lemma PlanText(files: map<string, Node>, args: map<string, Arg>,
                 resolve: Option<string>, limit: int, p: string, q: string)
    requires ComputePatch(files, args, resolve, limit).Ok?
    requires files[resolve.value].bytes == p + args["search_string"].s + q
    requires SoleAnchor(files[resolve.value].bytes, args["search_string"].s, |p|)
    ensures var plan := ComputePatch(files, args, resolve, limit).value;
      && HoldsOriginal(files, plan) && plan.original != ""
      && plan.original == p + (args["search_string"].s + q) && plan.newContent == p + (args["replace_string"].s + q)
  {
    var content, search, replace := files[resolve.value].bytes, args["search_string"].s, args["replace_string"].s;
    SoleAnchorIsIndex(content, search, |p|);
    SplicedText(p, search, replace, q);
  }

  lemma SplicedText(p: string, search: string, replace: string, q: string)
    ensures var content := p + search + q;
      && content == p + (search + q)
      && content[..|p|] + replace + content[|p| + |search|..] == p + (replace + q)
  {
    var content := p + search + q;
    assert content[..|p|] == p && content[|p| + |search|..] == q;
  }

  /** Some write that stops after n bytes leaves the original if and only if the original
      is a prefix of the new content. */
  lemma PartialKeepsIff(files: map<string, Node>, plan: Plan)
    requires HoldsOriginal(files, plan)
    ensures (exists n: nat :: HoldsOriginal(WriteFile(files, plan.resolved, plan.newContent, Partial(n)), plan))
       <==> plan.original <= plan.newContent
  {
    if plan.original <= plan.newContent {
      assert HoldsOriginal(WriteFile(files, plan.resolved, plan.newContent, Partial(|plan.original|)), plan);
    }
  }

  lemma PrefixBehind(p: string, a: string, b: string)
    ensures p + a <= p + b <==> a <= b
  {
    if p + a <= p + b {
      assert a == (p + a)[|p|..] && b[..|a|] == (p + b)[|p|..|p| + |a|];
    }
    if a <= b {
      assert b == a + b[|a|..];
      assert p + b == (p + a) + b[|a|..];
    }
  }

  /** A verify command that deletes the file cannot be rolled back. */
  lemma DeletedFileStaysDeleted(plan: Plan, world: map<string, Node>, io: WriteOutcome)
    requires plan.resolved !in world
    ensures Restored(world, plan, io) == world && !HoldsOriginal(Restored(world, plan, io), plan)
  {
  }
}
