/** Arguments of dispatch_worker_pool (internal/middleware/workerpool.go): decoding,
    path cleaning, and the check that declared scopes are pairwise disjoint. */
module WorkerPool {
  import opened Text

  const MAX_PROMPT: nat := 16 * 1024
  const MAX_ID: nat := 64

  datatype Json = JNull | JBool(b: bool) | JNumber(n: int) | JString(s: string)
    | JArray(items: seq<Json>) | JObject(fields: map<string, Json>)

  datatype SubTask = SubTask(id: string, prompt: string, paths: seq<string>)

  datatype Problem = NoTasks | TooManyTasks | NotAnObject | EmptyPrompt | LongPrompt
    | NoPaths | PathNotString | EmptyPath | AbsolutePath | OutsidePath
    | LongId | DottedId | IdCharacter | DuplicateId | Overlap

  // ---- Paths ----

  /** One element of path.Clean on a relative path. */
  function Push(stack: seq<string>, seg: string): seq<string>
  {
    if seg == "" || seg == "." then stack
    else if seg == ".." && stack != [] && stack[|stack| - 1] != ".." then stack[..|stack| - 1]
    else stack + [seg]
  }

  function CleanSegs(segs: seq<string>): seq<string>
  {
    if segs == [] then [] else Push(CleanSegs(segs[..|segs| - 1]), segs[|segs| - 1])
  }

  function Segs(p: string): seq<string> { Split(p, '/') }

  /** path.Clean on a relative path. */
  function Clean(p: string): string
  {
    var segs := CleanSegs(Segs(p));
    if segs == [] then "." else Join(segs, '/')
  }

  function CleanScopePath(p: string): Result<string, Problem>
  {
    var t := TrimSpace(p);
    if t == "" then Err(EmptyPath)
    else if HasPrefix(t, "/") then Err(AbsolutePath)
    else
      var c := Clean(t);
      if c == "." || c == ".." || HasPrefix(c, "../") then Err(OutsidePath) else Ok(c)
  }

  /** A segment that names an entry of a directory. */
  predicate Name(seg: string) { seg != "" && seg != "." && seg != ".." && '/' !in seg }

  /** What path.Clean leaves: parents first, then names. */
  ghost predicate Normal(segs: seq<string>)
  {
    forall i :: 0 <= i < |segs| ==> NormalAt(segs, i)
  }

  ghost predicate NormalAt(segs: seq<string>, i: nat)
    requires i < |segs|
  {
    Name(segs[i]) || (segs[i] == ".." && (i > 0 ==> segs[i - 1] == ".."))
  }

  lemma PushNormal(stack: seq<string>, seg: string)
    requires Normal(stack) && '/' !in seg
    ensures Normal(Push(stack, seg))
  {
    var r := Push(stack, seg);
    forall i | 0 <= i < |r| ensures NormalAt(r, i) {
      if i < |stack| { assert NormalAt(stack, i); }
    }
  }

  lemma {:induction false} CleanNormal(segs: seq<string>)
    requires forall i :: 0 <= i < |segs| ==> '/' !in segs[i]
    ensures Normal(CleanSegs(segs))
  {
    if segs == [] {
    } else {
      CleanNormal(segs[..|segs| - 1]);
      PushNormal(CleanSegs(segs[..|segs| - 1]), segs[|segs| - 1]);
    }
  }

  /** Normal forms are fixed points of cleaning. */
  lemma {:induction false} CleanFixed(segs: seq<string>)
    requires Normal(segs)
    ensures CleanSegs(segs) == segs
  {
    if segs == [] {
    } else {
      var n := |segs| - 1;
      var front := segs[..n];
      assert Normal(front) by {
        forall i | 0 <= i < |front| ensures NormalAt(front, i) { assert NormalAt(segs, i); }
      }
      CleanFixed(front);
      assert NormalAt(segs, n) && segs == front + [segs[n]];
    }
  }

  lemma {:induction false} AllNames(segs: seq<string>, i: nat)
    requires Normal(segs) && i < |segs| && segs[0] != ".."
    ensures Name(segs[i])
  {
    assert NormalAt(segs, i);
    if i == 0 {
    } else {
      AllNames(segs, i - 1);
    }
  }

  /** A path is inside the workspace when every segment of it is a name. */
  ghost predicate Inside(p: string)
  {
    forall i :: 0 <= i < |Segs(p)| ==> Name(Segs(p)[i])
  }

  /** An accepted scope entry is a clean path inside the workspace that names what the
      declared text names, and cleaning it again changes nothing. */
  lemma CleanScopeInside(p: string)
    requires CleanScopePath(p).Ok?
    ensures var c := CleanScopePath(p).value;
      Inside(c) && Segs(c) == CleanSegs(Segs(TrimSpace(p))) && Clean(c) == c
  {
    var t := TrimSpace(p);
    var segs := CleanSegs(Segs(t));
    SplitPiecesClean(t, '/');
    CleanNormal(Segs(t));
    assert segs != [];
    forall i | 0 <= i < |segs| ensures '/' !in segs[i] { assert NormalAt(segs, i); }
    SplitJoin(segs, '/');
    if segs[0] == ".." {
      ParentRejected(segs);
      assert false;
    }
    forall i | 0 <= i < |segs| ensures Name(segs[i]) { AllNames(segs, i); }
    CleanFixed(segs);
  }

  lemma ParentRejected(segs: seq<string>)
    requires segs != [] && segs[0] == ".."
    ensures var c := Join(segs, '/'); c == ".." || HasPrefix(c, "../")
  {
  }

  /** How far below its start a walk along some segments ends; negative is above it. */
  function Depth(segs: seq<string>): int
  {
    if segs == [] then 0
    else
      var last := segs[|segs| - 1];
      Depth(segs[..|segs| - 1]) + if last == "" || last == "." then 0 else if last == ".." then -1 else 1
  }

  /** The walk is above its start at some point. */
  predicate Climbs(segs: seq<string>) { segs != [] && (Depth(segs) < 0 || Climbs(segs[..|segs| - 1])) }

  /** Cleaning is walking: a walk that climbs starts with a parent, any other is as long as
      it is deep. */
  lemma {:induction false} CleanWalks(segs: seq<string>)
    requires forall i :: 0 <= i < |segs| ==> '/' !in segs[i]
    ensures var r := CleanSegs(segs);
      if Climbs(segs) then r != [] && r[0] == ".."
      else |r| == Depth(segs) && forall i :: 0 <= i < |r| ==> Name(r[i])
  {
    if segs == [] {
    } else {
      CleanWalks(segs[..|segs| - 1]);
    }
  }

  /** The rules of path.Clean: an empty segment and "." go. */
  lemma {:induction false} CleanSkips(a: seq<string>, dot: string, b: seq<string>)
    requires dot == "" || dot == "."
    ensures CleanSegs(a + [dot] + b) == CleanSegs(a + b)
  {
    if b == [] {
      assert a + [dot] + b == a + [dot] && a + b == a && (a + [dot])[..|a|] == a;
    } else {
      CleanSkips(a, dot, b[..|b| - 1]);
      CleanSnoc(a + [dot], b);
      CleanSnoc(a, b);
    }
  }

  lemma CleanSnoc(a: seq<string>, b: seq<string>)
    requires b != []
    ensures CleanSegs(a + b) == Push(CleanSegs(a + b[..|b| - 1]), b[|b| - 1])
  {
    assert (a + b)[..|a + b| - 1] == a + b[..|b| - 1];
  }

  /** A name goes together with the ".." behind it. */
  lemma {:induction false} CleanCancels(a: seq<string>, name: string, b: seq<string>)
    requires Name(name)
    ensures CleanSegs(a + [name, ".."] + b) == CleanSegs(a + b)
  {
    if b == [] {
      assert a + [name, ".."] + b == a + [name, ".."] && a + b == a;
      CleanSnoc(a, [name, ".."]);
      assert [name, ".."][..1] == [name];
      CleanSnoc(a, [name]);
      assert a + [name][..0] == a;
    } else {
      CleanCancels(a, name, b[..|b| - 1]);
      CleanSnoc(a + [name, ".."], b);
      CleanSnoc(a, b);
    }
  }

  /** A scope entry is accepted exactly when, without the space around it, it is relative,
      never climbs above the workspace, and ends below it. */
  lemma AcceptedIff(p: string)
    ensures var t := TrimSpace(p);
      CleanScopePath(p).Ok? <==> t != "" && t[0] != '/' && !Climbs(Segs(t)) && Depth(Segs(t)) > 0
  {
    var t := TrimSpace(p);
    if t != "" {
      var segs := CleanSegs(Segs(t));
      SplitPiecesClean(t, '/');
      CleanWalks(Segs(t));
      if Climbs(Segs(t)) {
        ParentRejected(segs);
      } else if segs != [] {
        NamesAccepted(segs);
      }
    }
  }

  lemma NamesAccepted(segs: seq<string>)
    requires segs != [] && forall i :: 0 <= i < |segs| ==> Name(segs[i])
    ensures var c := Join(segs, '/'); c != "." && c != ".." && !HasPrefix(c, "../")
  {
    SplitJoin(segs, '/');
    NotDots(Join(segs, '/'));
    NotParent(Join(segs, '/'));
  }

  lemma NotDots(c: string)
    requires Name(Segs(c)[0])
    ensures c != "." && c != ".."
  {
    if c == "." || c == ".." { SplitOneLine(c, '/'); }
  }

  lemma NotParent(c: string)
    requires Name(Segs(c)[0])
    ensures !HasPrefix(c, "../")
  {
    if HasPrefix(c, "../") { ParentFirst(c); }
  }

  lemma ParentFirst(c: string)
    requires HasPrefix(c, "../")
    ensures Segs(c)[0] == ".."
  {
    assert c == ".." + ['/'] + c[3..];
    SplitFirstLine("..", c[3..], '/');
  }

  // ---- Scopes ----

  /** The string test of PathInScope for one entry. */
  predicate Under(p: string, entry: string) { p == entry || HasPrefix(p, entry + "/") }

  predicate PathInScope(p: string, scope: seq<string>)
  {
    exists k :: 0 <= k < |scope| && Under(p, scope[k])
  }

  predicate Clash(x: string, y: string) { x == y || HasPrefix(y, x + "/") || HasPrefix(x, y + "/") }

  predicate ScopesOverlap(a: seq<string>, b: seq<string>)
  {
    exists i, j :: 0 <= i < |a| && 0 <= j < |b| && Clash(a[i], b[j])
  }

  lemma GlueBlank(a: seq<string>)
    requires |a| >= 1
    ensures Glue(a, ["", ""]) == a + [""]
  {
    assert a[|a| - 1] + "" == a[|a| - 1];
    assert a == a[..|a| - 1] + [a[|a| - 1]];
  }

  lemma GlueAfterBlank(a: seq<string>, b: seq<string>)
    requires |b| >= 1
    ensures Glue(a + [""], b) == a + b
  {
    assert "" + b[0] == b[0];
    assert (a + [""])[..|a|] == a;
    assert b == [b[0]] + b[1..];
  }

  lemma SplitTwo(x: string, y: string)
    ensures Segs(x + "/" + y) == Segs(x) + Segs(y)
  {
    SplitConcat(x + "/", y, '/');
    SplitConcat(x, "/", '/');
    assert Split("/", '/') == ["", ""] by { assert "/" == "" + ['/'] + ""; SplitFirstLine("", "", '/'); }
    GlueBlank(Segs(x));
    GlueAfterBlank(Segs(x), Segs(y));
  }

  /** The string prefix test means what it should: the entry's segments are the first
      segments of the path. */
  lemma UnderIff(p: string, entry: string)
    ensures Under(p, entry) <==> Segs(entry) <= Segs(p)
  {
    var e, s := Segs(entry), Segs(p);
    JoinSplit(p, '/');
    JoinSplit(entry, '/');
    if HasPrefix(p, entry + "/") {
      SplitTwo(entry, p[|entry| + 1..]);
      assert p == entry + "/" + p[|entry| + 1..];
    }
    if e <= s && |e| < |s| {
      SplitPiecesClean(p, '/');
      var rest := Join(s[|e|..], '/');
      SplitJoin(s[|e|..], '/');
      SplitTwo(entry, rest);
      assert s == e + s[|e|..];
      JoinSplit(entry + "/" + rest, '/');
      assert p == entry + "/" + rest;
    } else if e <= s {
      assert e == s;
    }
  }

  /** If no entries clash, no path at all is in both scopes, and no path in one scope is
      above or below a path in the other. */
  lemma DisjointScopes(a: seq<string>, b: seq<string>, p: string, q: string)
    requires !ScopesOverlap(a, b) && PathInScope(p, a) && PathInScope(q, b)
    ensures !(Segs(p) <= Segs(q)) && !(Segs(q) <= Segs(p))
  {
    var i :| 0 <= i < |a| && Under(p, a[i]);
    var j :| 0 <= j < |b| && Under(q, b[j]);
    UnderIff(p, a[i]);
    UnderIff(q, b[j]);
    assert !Clash(a[i], b[j]);
    UnderIff(a[i], b[j]);
    UnderIff(b[j], a[i]);
    NestedAbove(Segs(a[i]), Segs(b[j]), Segs(p), Segs(q));
  }

  lemma NestedAbove(x: seq<string>, y: seq<string>, p: seq<string>, q: seq<string>)
    requires x <= p && y <= q
    ensures p <= q || q <= p ==> x <= y || y <= x
  {
  }

  /** Scopes are called overlapping exactly when some path is in both. */
  lemma OverlapIff(a: seq<string>, b: seq<string>)
    ensures ScopesOverlap(a, b) <==> exists p: string :: PathInScope(p, a) && PathInScope(p, b)
  {
    if ScopesOverlap(a, b) {
      var i, j :| 0 <= i < |a| && 0 <= j < |b| && Clash(a[i], b[j]);
      var p := if HasPrefix(b[j], a[i] + "/") then b[j] else a[i];
      assert Under(p, a[i]) && Under(p, b[j]);
      assert PathInScope(p, a) && PathInScope(p, b);
    } else {
      forall p: string | PathInScope(p, a) ensures !PathInScope(p, b) {
        assert Segs(p) <= Segs(p);
        if PathInScope(p, b) { DisjointScopes(a, b, p, p); }
      }
    }
  }

  // ---- Arguments ----

  predicate IdChar(c: char)
  {
    'a' <= c <= 'z' || 'A' <= c <= 'Z' || '0' <= c <= '9' || c == '.' || c == '_' || c == '-'
  }

  predicate HasDots(id: string) { exists k :: 0 <= k < |id| - 1 && id[k] == '.' && id[k + 1] == '.' }

  predicate SafeId(id: string)
  {
    |id| <= 64 && !HasDots(id) && forall k :: 0 <= k < |id| ==> IdChar(id[k])
  }

  function StringField(m: map<string, Json>, key: string): string
  {
    if key in m && m[key].JString? then m[key].s else ""
  }

  /** A task's id: its own, or one made from its position. */
  function IdOf(elem: Json, i: nat): string
  {
    var id := if elem.JObject? then TrimSpace(StringField(elem.fields, "id")) else "";
    if id == "" then "task" + Decimal(i + 1) else id
  }

  /** What a decoded task must be, field by field. */
  ghost predicate Decodes(elem: Json, i: nat, task: SubTask)
  {
    && elem.JObject?
    && task.prompt == StringField(elem.fields, "prompt")
    && TrimSpace(task.prompt) != "" && |task.prompt| <= 16384
    && "paths" in elem.fields && elem.fields["paths"].JArray?
    && DecodesPaths(elem.fields["paths"].items, task.paths)
    && task.id == IdOf(elem, i)
    && SafeId(task.id)
  }

  ghost predicate DecodesPaths(items: seq<Json>, paths: seq<string>)
  {
    && |paths| == |items| && |items| > 0
    && forall k :: 0 <= k < |items| ==> DecodesPath(items[k], paths[k])
  }

  ghost predicate DecodesPath(item: Json, path: string)
  {
    item.JString? && CleanScopePath(item.s) == Ok(path)
  }

  /** The raw task list. */
  function RawTasks(args: map<string, Json>): seq<Json>
  {
    if "tasks" in args && args["tasks"].JArray? then args["tasks"].items else []
  }

  /** A whole accepted argument: exactly what the documentation promises. */
  ghost predicate Accepts(args: map<string, Json>, maxTasks: int, tasks: seq<SubTask>)
  {
    && |tasks| > 0 && (maxTasks > 0 ==> |tasks| <= maxTasks)
    && DecodesAll(RawTasks(args), tasks)
    && DistinctIds(tasks)
    && DisjointTasks(tasks)
  }

  ghost predicate DecodesAll(raw: seq<Json>, tasks: seq<SubTask>)
  {
    |raw| == |tasks| && forall i :: 0 <= i < |tasks| ==> Decodes(raw[i], i, tasks[i])
  }

  ghost predicate DistinctIds(tasks: seq<SubTask>)
  {
    forall i, j :: 0 <= i < j < |tasks| ==> tasks[i].id != tasks[j].id
  }

  ghost predicate DisjointTasks(tasks: seq<SubTask>)
  {
    forall i, j :: 0 <= i < j < |tasks| ==> !ScopesOverlap(tasks[i].paths, tasks[j].paths)
  }

  method ParseTaskPaths(v: Option<Json>) returns (r: Result<seq<string>, Problem>)
    ensures r.Ok? ==> v.Some? && v.value.JArray? && DecodesPaths(v.value.items, r.value)
    ensures r.Err? && v.Some? && v.value.JArray? ==> forall paths :: !DecodesPaths(v.value.items, paths)
  {
    if v.None? || !v.value.JArray? || |v.value.items| == 0 { return Err(NoPaths); }
    var list := v.value.items;
    var out := [];
    for k := 0 to |list|
      invariant |out| == k
      invariant forall j :: 0 <= j < k ==> DecodesPath(list[j], out[j])
    {
      if !list[k].JString? {
        assert forall path :: !DecodesPath(list[k], path);
        return Err(PathNotString);
      }
      var c := CleanScopePath(list[k].s);
      if c.Err? {
        assert forall path :: !DecodesPath(list[k], path);
        return Err(c.error);
      }
      out := out + [c.value];
    }
    return Ok(out);
  }

  method ValidateTaskID(id: string) returns (r: Option<Problem>)
    ensures r.None? <==> SafeId(id)
  {
    if |id| > MAX_ID { return Some(LongId); }
    if HasDots(id) { return Some(DottedId); }
    for k := 0 to |id|
      invariant forall j :: 0 <= j < k ==> IdChar(id[j])
    {
      if !IdChar(id[k]) { return Some(IdCharacter); }
    }
    return None;
  }

  /** One turn of the decoding loop, up to the duplicate check. */
  method ParseTask(elem: Json, i: nat) returns (r: Result<SubTask, Problem>)
    ensures r.Ok? ==> Decodes(elem, i, r.value)
    ensures r.Err? ==> forall task :: !Decodes(elem, i, task)
  {
    if !elem.JObject? { return Err(NotAnObject); }
    var m := elem.fields;
    var prompt := StringField(m, "prompt");
    if TrimSpace(prompt) == "" { return Err(EmptyPrompt); }
    if |prompt| > MAX_PROMPT { return Err(LongPrompt); }
    var paths := ParseTaskPaths(if "paths" in m then Some(m["paths"]) else None);
    if paths.Err? { return Err(paths.error); }
    var id := TrimSpace(StringField(m, "id"));
    if id == "" { id := "task" + Decimal(i + 1); }
    assert id == IdOf(elem, i);
    var bad := ValidateTaskID(id);
    if bad.Some? { return Err(bad.value); }
    return Ok(SubTask(id, prompt, paths.value));
  }

  method FindOverlap(a: seq<string>, b: seq<string>) returns (overlap: bool)
    ensures overlap <==> ScopesOverlap(a, b)
  {
    for i := 0 to |a|
      invariant forall k, j :: 0 <= k < i && 0 <= j < |b| ==> !Clash(a[k], b[j])
    {
      for j := 0 to |b|
        invariant forall l :: 0 <= l < j ==> !Clash(a[i], b[l])
      {
        if Clash(a[i], b[j]) { return true; }
      }
    }
    return false;
  }

  /** The pairwise scope check. */
  method CheckDisjoint(tasks: seq<SubTask>) returns (ok: bool)
    ensures ok <==> DisjointTasks(tasks)
  {
    for i := 0 to |tasks|
      invariant forall k, j :: 0 <= k < i && k < j < |tasks| ==> !ScopesOverlap(tasks[k].paths, tasks[j].paths)
    {
      for j := i + 1 to |tasks|
        invariant forall l :: i < l < j ==> !ScopesOverlap(tasks[i].paths, tasks[l].paths)
      {
        var overlap := FindOverlap(tasks[i].paths, tasks[j].paths);
        if overlap { return false; }
      }
    }
    return true;
  }

  /** Some list of tasks would be accepted, scopes aside. */
  ghost predicate Decodable(raw: seq<Json>) { exists tasks :: DecodesAll(raw, tasks) && DistinctIds(tasks) }

  ghost predicate Seen(tasks: seq<SubTask>, seenID: set<string>)
  {
    && (forall id :: id in seenID ==> exists k :: 0 <= k < |tasks| && tasks[k].id == id)
    && (forall k :: 0 <= k < |tasks| ==> tasks[k].id in seenID)
  }

  ghost predicate DecodesFirst(raw: seq<Json>, tasks: seq<SubTask>)
  {
    |tasks| <= |raw| && forall k :: 0 <= k < |tasks| ==> Decodes(raw[k], k, tasks[k])
  }

  lemma SeenBefore(raw: seq<Json>, tasks: seq<SubTask>, seenID: set<string>, task: SubTask)
    requires Seen(tasks, seenID) && DecodesFirst(raw, tasks) && task.id in seenID
    ensures exists k :: 0 <= k < |tasks| && IdOf(raw[k], k) == task.id
  {
    var k :| 0 <= k < |tasks| && tasks[k].id == task.id;
    assert Decodes(raw[k], k, tasks[k]);
  }

  lemma SeeOne(tasks: seq<SubTask>, seenID: set<string>, task: SubTask)
    requires Seen(tasks, seenID) && DistinctIds(tasks) && task.id !in seenID
    ensures Seen(tasks + [task], seenID + {task.id}) && DistinctIds(tasks + [task])
  {
    var tasks' := tasks + [task];
    forall id | id in seenID + {task.id} ensures exists k :: 0 <= k < |tasks'| && tasks'[k].id == id {
      if id == task.id {
        assert tasks'[|tasks|].id == id;
      } else {
        var k :| 0 <= k < |tasks| && tasks[k].id == id;
        assert tasks'[k].id == id;
      }
    }
  }

  lemma DecodesOneMore(raw: seq<Json>, tasks: seq<SubTask>, task: SubTask)
    requires DecodesFirst(raw, tasks) && |tasks| < |raw| && Decodes(raw[|tasks|], |tasks|, task)
    ensures DecodesFirst(raw, tasks + [task])
  {
  }

  lemma DuplicateRefutes(raw: seq<Json>, tasks: seq<SubTask>, seenID: set<string>, task: SubTask)
    requires Seen(tasks, seenID) && DecodesFirst(raw, tasks) && task.id in seenID
    requires |tasks| < |raw| && Decodes(raw[|tasks|], |tasks|, task)
    ensures !Decodable(raw)
  {
    SeenBefore(raw, tasks, seenID, task);
    DecodableAt(raw, |tasks|);
  }

  /** The decoding loop with its duplicate check. */
  method DecodeTasks(raw: seq<Json>) returns (r: Result<seq<SubTask>, Problem>)
    ensures r.Ok? ==> DecodesAll(raw, r.value) && DistinctIds(r.value)
    ensures r.Err? ==> !Decodable(raw)
  {
    var tasks: seq<SubTask> := [];
    var seenID: set<string> := {};
    for i := 0 to |raw|
      invariant |tasks| == i && DistinctIds(tasks) && Seen(tasks, seenID) && DecodesFirst(raw, tasks)
    {
      var task := ParseTask(raw[i], i);
      if task.Err? {
        DecodableAt(raw, i);
        return Err(task.error);
      }
      if task.value.id in seenID {
        DuplicateRefutes(raw, tasks, seenID, task.value);
        return Err(DuplicateId);
      }
      SeeOne(tasks, seenID, task.value);
      DecodesOneMore(raw, tasks, task.value);
      seenID := seenID + {task.value.id};
      tasks := tasks + [task.value];
    }
    return Ok(tasks);
  }

  lemma DecodableAt(raw: seq<Json>, i: nat)
    requires i < |raw|
    ensures Decodable(raw) ==> exists task :: Decodes(raw[i], i, task)
    ensures Decodable(raw) ==> forall k :: 0 <= k < i ==> IdOf(raw[k], k) != IdOf(raw[i], i)
  {
    if Decodable(raw) {
      var tasks :| DecodesAll(raw, tasks) && DistinctIds(tasks);
      assert Decodes(raw[i], i, tasks[i]);
      forall k | 0 <= k < i ensures IdOf(raw[k], k) != IdOf(raw[i], i) {
        assert Decodes(raw[k], k, tasks[k]);
      }
    }
  }

  lemma DecodingUnique(raw: seq<Json>, a: seq<SubTask>, b: seq<SubTask>)
    requires DecodesAll(raw, a) && DecodesAll(raw, b)
    ensures a == b
  {
    forall i | 0 <= i < |raw| ensures a[i] == b[i] { TaskUnique(raw[i], i, a[i], b[i]); }
  }

  lemma TaskUnique(elem: Json, i: nat, a: SubTask, b: SubTask)
    requires Decodes(elem, i, a) && Decodes(elem, i, b)
    ensures a == b
  {
  }

  lemma AcceptsIff(args: map<string, Json>, maxTasks: int, tasks: seq<SubTask>)
    requires DecodesAll(RawTasks(args), tasks) && DistinctIds(tasks)
    ensures (exists ts :: Accepts(args, maxTasks, ts)) <==> Accepts(args, maxTasks, tasks)
  {
    forall ts | Accepts(args, maxTasks, ts) ensures ts == tasks { DecodingUnique(RawTasks(args), ts, tasks); }
  }

  /** The arguments are accepted exactly when some list of tasks meets every promise, and
      then that list is the result. */
  method ParseWorkerPoolArgs(args: map<string, Json>, maxTasks: int) returns (r: Result<seq<SubTask>, Problem>)
    ensures r.Ok? ==> Accepts(args, maxTasks, r.value)
    ensures r.Err? ==> forall tasks :: !Accepts(args, maxTasks, tasks)
  {
    var raw := RawTasks(args);
    if |raw| == 0 { return Err(NoTasks); }
    if maxTasks > 0 && |raw| > maxTasks { return Err(TooManyTasks); }
    r := DecodeTasks(raw);
    if r.Ok? {
      AcceptsIff(args, maxTasks, r.value);
      var ok := CheckDisjoint(r.value);
      if !ok { r := Err(Overlap); }
    }
  }

  /** Disjoint tasks give every path to at most one task: two scopes share no path, and
      no path of one is above or below a path of the other. */
  lemma TasksDisjoint(tasks: seq<SubTask>, i: nat, j: nat, p: string, q: string)
    requires DisjointTasks(tasks) && i < |tasks| && j < |tasks| && i != j
    requires PathInScope(p, tasks[i].paths) && PathInScope(q, tasks[j].paths)
    ensures p != q && !(Segs(p) <= Segs(q)) && !(Segs(q) <= Segs(p))
  {
    if i < j {
      DisjointScopes(tasks[i].paths, tasks[j].paths, p, q);
    } else {
      DisjointScopes(tasks[j].paths, tasks[i].paths, q, p);
    }
  }
}
