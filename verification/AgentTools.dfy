/** The App Builder's tools over the staged-file map, and its path rules. */
module AgentTools {
  import opened Common
  import opened Lists

  const MAX_FILES := 200
  const MAX_FILE_BYTES := 1_000_000
  const MAX_PATCH_BYTES := 20_000_000

  // ---------------------------------------------------------------------
  // Text search

  predicate OccursAt(s: string, part: string, i: int) {
    0 <= i && i + |part| <= |s| && s[i..i + |part|] == part
  }

  predicate Contains(s: string, part: string) {
    exists i :: 0 <= i <= |s| - |part| && OccursAt(s, part, i)
  }

  /** The first occurrence at or after `from`. */
  function IndexOf(s: string, part: string, from: nat): (r: Option<nat>)
    ensures r.Some? ==> from <= r.value && OccursAt(s, part, r.value) && forall j :: from <= j < r.value ==> !OccursAt(s, part, j)
    ensures r.None? ==> forall j :: from <= j ==> !OccursAt(s, part, j)
    decreases |s| - from
  {
    if from + |part| > |s| then None
    else if OccursAt(s, part, from) then Some(from)
    else IndexOf(s, part, from + 1)
  }

  /** How often the text is found from an index on, without overlaps. */
  function Matches(s: string, part: string, from: nat): nat
    requires part != ""
    decreases |s| - from
  {
    match IndexOf(s, part, from)
    case None => 0
    case Some(i) => 1 + Matches(s, part, i + |part|)
  }

  ghost predicate Unique(s: string, part: string) {
    (exists i :: OccursAt(s, part, i)) && forall i, j :: OccursAt(s, part, i) && OccursAt(s, part, j) ==> i == j
  }

  lemma NoMatches(s: string, part: string, from: nat)
    requires part != ""
    ensures Matches(s, part, from) == 0 <==> forall j :: from <= j ==> !OccursAt(s, part, j)
  {
  }

  /** "Exactly one match" means: no occurrence clear of the first one. */
  lemma OneMatch(s: string, part: string)
    requires part != ""
    ensures Matches(s, part, 0) == 1 <==>
      IndexOf(s, part, 0).Some? && forall j :: IndexOf(s, part, 0).value + |part| <= j ==> !OccursAt(s, part, j)
  {
    match IndexOf(s, part, 0)
    case None =>
    case Some(i) => NoMatches(s, part, i + |part|);
  }

  /** A proper prefix that is also a suffix. */
  predicate Border(part: string, b: int) {
    0 < b < |part| && part[..b] == part[|part| - b..]
  }

  ghost predicate CountMeansUnique(part: string)
    requires part != ""
  {
    forall s: string :: CountedOnce(s, part) ==> Unique(s, part)
  }

  ghost predicate CountedOnce(s: string, part: string)
    requires part != ""
  {
    Matches(s, part, 0) == 1
  }

  ghost predicate OverlapsItself(part: string) { exists b :: Border(part, b) }

  /** The tool promises to replace a string that is unique in the file. Its
      match count delivers that for every file if and only if the searched
      text cannot overlap itself. */
  lemma MatchCountMeansUniqueIff(part: string)
    requires part != ""
    ensures CountMeansUnique(part) <==> !OverlapsItself(part)
  {
    if OverlapsItself(part) { OverlapBreaksCount(part); }
    if !OverlapsItself(part) { NoOverlapCounts(part); }
  }

  lemma OverlapBreaksCount(part: string)
    requires part != "" && OverlapsItself(part)
    ensures !CountMeansUnique(part)
  {
    var b: nat :| Border(part, b);
    BorderCountsOnce(part, b);
    var s := part + part[b..];
    assert CountedOnce(s, part) && !Unique(s, part);
  }

  lemma NoOverlapCounts(part: string)
    requires part != "" && !OverlapsItself(part)
    ensures CountMeansUnique(part)
  {
    forall s: string | CountedOnce(s, part) ensures Unique(s, part) { NoBorderMeansUnique(s, part); }
  }

  lemma BorderCountsOnce(part: string, b: nat)
    requires Border(part, b)
    ensures Matches(part + part[b..], part, 0) == 1 && !Unique(part + part[b..], part)
  {
    var s := part + part[b..];
    assert OccursAt(s, part, 0);
    assert s[|part| - b..2 * |part| - b] == part[|part| - b..] + part[b..];
    assert part == part[..b] + part[b..];
    assert OccursAt(s, part, |part| - b);
    OneMatch(s, part);
  }

  lemma NoBorderMeansUnique(s: string, part: string)
    requires part != "" && Matches(s, part, 0) == 1 && !OverlapsItself(part)
    ensures Unique(s, part)
  {
    OneMatch(s, part);
    var i := IndexOf(s, part, 0).value;
    forall j | OccursAt(s, part, j) ensures j == i {
      if i < j < i + |part| { OverlapIsBorder(s, part, i, j); }
    }
  }

  lemma OverlapIsBorder(s: string, part: string, i: nat, j: nat)
    requires OccursAt(s, part, i) && OccursAt(s, part, j) && i < j < i + |part|
    ensures Border(part, i + |part| - j)
  {
    var b := i + |part| - j;
    assert part[|part| - b..] == s[j..i + |part|];
    assert part[..b] == s[j..i + |part|];
  }

  lemma OverlapCountsOnce()
    ensures Matches("aaa", "aa", 0) == 1 && !Unique("aaa", "aa")
  {
    assert OccursAt("aaa", "aa", 0) && OccursAt("aaa", "aa", 1);
  }

  // ---------------------------------------------------------------------
  // `current.replace(oldText, newText)` and its substitution patterns

  predicate PatternAt(s: string, i: int) {
    0 <= i < |s| - 1 && s[i] == '$' && s[i + 1] in "$&`'"
  }

  /** The replacement text after `$$`, `$&`, `` $` `` and `$'` are expanded. */
  function Expand(text: string, pre: string, found: string, post: string): string {
    if |text| < 2 then text
    else if text[0] == '$' && text[1] == '$' then "$" + Expand(text[2..], pre, found, post)
    else if text[0] == '$' && text[1] == '&' then found + Expand(text[2..], pre, found, post)
    else if text[0] == '$' && text[1] == '`' then pre + Expand(text[2..], pre, found, post)
    else if text[0] == '$' && text[1] == '\'' then post + Expand(text[2..], pre, found, post)
    else text[..1] + Expand(text[1..], pre, found, post)
  }

  function Replace(s: string, part: string, text: string): string {
    match IndexOf(s, part, 0)
    case None => s
    case Some(i) =>
      var pre, post := s[..i], s[i + |part|..];
      pre + Expand(text, pre, part, post) + post
  }

  lemma {:induction false} PlainText(text: string, pre: string, found: string, post: string)
    requires forall i :: !PatternAt(text, i)
    ensures Expand(text, pre, found, post) == text
    decreases |text|
  {
    if |text| >= 2 {
      assert !PatternAt(text, 0);
      forall i ensures !PatternAt(text[1..], i) { assert !PatternAt(text, i + 1); }
      PlainText(text[1..], pre, found, post);
    }
  }

  lemma {:induction false} PatternShortens(text: string)
    ensures |Expand(text, "", "x", "")| <= |text|
    ensures (exists i :: PatternAt(text, i)) ==> |Expand(text, "", "x", "")| < |text|
    decreases |text|
  {
    if |text| >= 2 {
      PatternShortens(text[2..]);
      PatternShortens(text[1..]);
      if (exists i :: PatternAt(text, i)) && !PatternAt(text, 0) {
        var i :| PatternAt(text, i);
        assert PatternAt(text[1..], i - 1);
      }
    }
  }

  /** The replacement is inserted as written, in every file, if and only if
      it holds none of the four patterns. */
  lemma ReplacedAsWrittenIff(text: string)
    ensures (forall pre: string, found: string, post: string :: Expand(text, pre, found, post) == text) <==>
      (forall i :: !PatternAt(text, i))
  {
    if forall i :: !PatternAt(text, i) {
      forall pre: string, found: string, post: string ensures Expand(text, pre, found, post) == text {
        PlainText(text, pre, found, post);
      }
    } else {
      PatternShortens(text);
      assert Expand(text, "", "x", "") != text;
    }
  }

  // ---------------------------------------------------------------------
  // Paths

  function Stripped(path: string): string {
    if path != "" && path[0] == '/' then Stripped(path[1..]) else path
  }

  predicate PathChar(c: char) {
    'A' <= c <= 'Z' || 'a' <= c <= 'z' || '0' <= c <= '9' || c in "_.-/"
  }

  /** What safeRepositoryPath returns: relative, no "..", plain characters. */
  predicate Safe(path: string) {
    path != "" && path[0] != '/' && !Contains(path, "..") && forall i :: 0 <= i < |path| ==> PathChar(path[i])
  }

  function SafeRepositoryPath(path: string): (r: Option<string>)
    ensures r.Some? ==> Safe(r.value)
    ensures Safe(path) ==> r == Some(path)
  {
    var clean := Stripped(path);
    StrippedHasNoSlash(path);
    if clean == "" || Contains(clean, "..") || !(forall i :: 0 <= i < |clean| ==> PathChar(clean[i])) then None
    else Some(clean)
  }

  lemma StrippedHasNoSlash(path: string)
    ensures Stripped(path) != "" ==> Stripped(path)[0] != '/'
    ensures path != "" && path[0] != '/' ==> Stripped(path) == path
  {
  }

  const BLOCKED := [
    "/.env", "/.github/", "/db/", "/drizzle/", "/migrations/",
    "/package.json", "/package-lock.json", "/pnpm-lock.yaml", "/yarn.lock",
    "/vercel.json", "/next.config.",
    "/proxy.ts", "/middleware.ts", "/scripts/deploy", "/api/auth/",
    "/lib/auth/", "/lib/identity/", "/lib/access/", "/payments/", "/billing/"
  ]

  predicate Writable(path: string) {
    forall i :: 0 <= i < |BLOCKED| ==> !Contains("/" + Lower(path), BLOCKED[i])
  }

  lemma {:induction false} LowerTwice(s: string)
    ensures Lower(Lower(s)) == Lower(s)
    decreases |s|
  {
    if s != "" {
      LowerTwice(s[1..]);
      assert Lower(s)[1..] == Lower(s[1..]);
    }
  }

  /** Being protected does not depend on the letter case of the path. */
  lemma ProtectionIgnoresCase(a: string, b: string)
    requires Lower(a) == Lower(b)
    ensures Writable(a) <==> Writable(b)
    ensures Writable(a) <==> Writable(Lower(a))
  {
    LowerTwice(a);
  }

  // ---------------------------------------------------------------------
  // Staging

  type Files = map<string, string>

  /** What the tools read besides the staged files. */
  datatype Repo = Repo(lists: bool, read: string -> Option<string>, bytes: string -> nat, patchBytes: Files -> nat)

  datatype Args =
    | ListFiles
    | ReadFile(path: string)
    | ReplaceInFile(path: string, oldText: string, newText: string)
    | CreateFile(path: string, content: string)
    | ReviewChanges
    | Finish(blocked: bool)
    | Unsupported

  datatype Reply = Data | Edited(path: string) | Rejected | Finished(blocked: bool)

  /** The staged files are a plain object, so these names are found in it
      although nobody staged them. */
  const INHERITED := [
    "constructor", "hasOwnProperty", "isPrototypeOf", "propertyIsEnumerable", "toLocaleString", "toString", "valueOf",
    "__defineGetter__", "__defineSetter__", "__lookupGetter__", "__lookupSetter__"
  ]

  /** Found as well, and writing text to it is ignored. */
  const PROTO := "__proto__"

  predicate Inherited(path: string) { path == PROTO || path in INHERITED }

  /** What asking the object for the name answers. */
  predicate Present(files: Files, path: string) { path in files || Inherited(path) }

  predicate Keeps(files: Files, path: string) { path in files || path != PROTO }

  function Put(files: Files, path: string, content: string): Files {
    if Keeps(files, path) then files[path := content] else files
  }

  function Ordinary(files: Files): set<string> {
    set p | p in files && !Inherited(p)
  }

  /** Only plain, writable paths; at most 200 of them besides inherited names;
      none over a megabyte. */
  ghost predicate StagedOk(files: Files, repo: Repo) {
    && |Ordinary(files)| <= MAX_FILES && PROTO !in files
    && forall p :: p in files ==> Safe(p) && Writable(p) && repo.bytes(files[p]) <= MAX_FILE_BYTES
  }

  predicate Accepts(files: Files, path: string, content: string, repo: Repo) {
    (|files| < MAX_FILES || Present(files, path)) && repo.bytes(content) <= MAX_FILE_BYTES
  }

  /** The text an edit starts from. An inherited name gives no text to split,
      which throws, whatever the repository holds under it. */
  function Current(files: Files, path: string, repo: Repo): Option<string> {
    if path in files then Some(files[path]) else if Inherited(path) then None else repo.read(path)
  }

  /** The content an edit stages, if the tool gets as far as staging. */
  function EditOf(files: Files, args: Args, repo: Repo): Option<(string, string)> {
    match args
    case CreateFile(raw, content) =>
      (match SafeRepositoryPath(raw)
       case Some(path) => if Writable(path) then Some((path, content)) else None
       case None => None)
    case ReplaceInFile(raw, oldText, newText) =>
      (match SafeRepositoryPath(raw)
       case Some(path) =>
         var current := Current(files, path, repo);
         if Writable(path) && current.Some? && oldText != "" && Matches(current.value, oldText, 0) == 1
         then Some((path, Replace(current.value, oldText, newText)))
         else None
       case None => None)
    case _ => None
  }

  /** The staged files after one tool call. */
  function Touched(files: Files, args: Args, repo: Repo): Files {
    match EditOf(files, args, repo)
    case Some(edit) => if Accepts(files, edit.0, edit.1, repo) then Put(files, edit.0, edit.1) else files
    case None => files
  }

  predicate Succeeds(files: Files, args: Args, repo: Repo) {
    match EditOf(files, args, repo)
    case Some(edit) =>
      Accepts(files, edit.0, edit.1, repo) && repo.patchBytes(Put(files, edit.0, edit.1)) <= MAX_PATCH_BYTES
    case None => false
  }

  /** The edit is accepted, is new, and takes the patch over its limit. */
  predicate Overflows(files: Files, args: Args, repo: Repo) {
    match EditOf(files, args, repo)
    case Some(edit) =>
      && Accepts(files, edit.0, edit.1, repo) && Keeps(files, edit.0)
      && !(edit.0 in files && files[edit.0] == edit.1)
      && repo.patchBytes(files[edit.0 := edit.1]) > MAX_PATCH_BYTES
    case None => false
  }

  class Staging {
    var files: Files

    constructor (files: Files)
      ensures this.files == files
    {
      this.files := files;
    }

    /** stage: the size of the whole patch is checked after the write. */
    method Stage(path: string, content: string, repo: Repo) returns (ok: bool)
      modifies this
      ensures files == if Accepts(old(files), path, content, repo) then Put(old(files), path, content) else old(files)
      ensures ok <==> Accepts(old(files), path, content, repo) && repo.patchBytes(files) <= MAX_PATCH_BYTES
    {
      if |files| >= MAX_FILES && !Present(files, path) { return false; }
      if repo.bytes(content) > MAX_FILE_BYTES { return false; }
      files := Put(files, path, content);
      return repo.patchBytes(files) <= MAX_PATCH_BYTES;
    }

    /** runAppBuilderTool: a guard that throws becomes a Rejected reply. */
    method RunTool(args: Args, repo: Repo) returns (reply: Reply)
      modifies this
      ensures files == Touched(old(files), args, repo)
      ensures reply.Edited? <==> Succeeds(old(files), args, repo)
      ensures reply.Finished? <==> args.Finish?
      ensures args.Finish? ==> reply == Finished(args.blocked)
      ensures reply.Rejected? && files != old(files) <==> Overflows(old(files), args, repo)
      ensures args.ListFiles? ==> reply == if repo.lists then Data else Rejected
      ensures args.ReadFile? ==>
        var path := SafeRepositoryPath(args.path);
        reply == if path.Some? && (Present(files, path.value) || repo.read(path.value).Some?) then Data else Rejected
      ensures args.ReviewChanges? ==> reply == Data
      ensures args.Unsupported? ==> reply == Rejected
      ensures args.CreateFile? || args.ReplaceInFile? ==> reply.Edited? || reply.Rejected?
    {
      RejectedEditIsStagedIff(files, args, repo);
      match args
      case ListFiles => reply := if repo.lists then Data else Rejected;
      case ReadFile(raw) =>
        var path := SafeRepositoryPath(raw);
        reply := if path.Some? && (Present(files, path.value) || repo.read(path.value).Some?) then Data else Rejected;
      case ReplaceInFile(raw, oldText, newText) => reply := ReplaceIn(raw, oldText, newText, repo);
      case CreateFile(raw, content) =>
        var path := SafeRepositoryPath(raw);
        if path.None? || !Writable(path.value) { return Rejected; }
        var ok := Stage(path.value, content, repo);
        reply := if ok then Edited(path.value) else Rejected;
      case ReviewChanges => reply := Data;
      case Finish(blocked) => reply := Finished(blocked);
      case Unsupported => reply := Rejected;
    }

    method ReplaceIn(raw: string, oldText: string, newText: string, repo: Repo) returns (reply: Reply)
      modifies this
      ensures files == Touched(old(files), ReplaceInFile(raw, oldText, newText), repo)
      ensures reply.Edited? <==> Succeeds(old(files), ReplaceInFile(raw, oldText, newText), repo)
      ensures reply.Edited? || reply.Rejected?
    {
      var path := SafeRepositoryPath(raw);
      if path.None? || !Writable(path.value) { return Rejected; }
      var current := Current(files, path.value, repo);
      if current.None? { return Rejected; }
      var matches := if oldText == "" then 0 else Matches(current.value, oldText, 0);
      if matches != 1 { return Rejected; }
      var ok := Stage(path.value, Replace(current.value, oldText, newText), repo);
      reply := if ok then Edited(path.value) else Rejected;
    }
  }

  lemma EditIsWritable(files: Files, args: Args, repo: Repo)
    requires EditOf(files, args, repo).Some?
    ensures Safe(EditOf(files, args, repo).value.0) && Writable(EditOf(files, args, repo).value.0)
  {
  }

  ghost predicate SameExcept(a: Files, b: Files, path: string) {
    a - {path} == b - {path}
  }

  lemma PutKeepsStagedOk(files: Files, path: string, content: string, repo: Repo)
    requires StagedOk(files, repo) && Safe(path) && Writable(path) && Accepts(files, path, content, repo)
    ensures StagedOk(Put(files, path, content), repo)
  {
    hide Inherited, Safe, Writable;
    OrdinaryAfter(files, path, content);
  }

  /** No tool call stages a protected path, outgrows the limits on files, or
      touches more than one path; and nothing staged is ever unstaged. */
  lemma ToolKeepsStagedOk(files: Files, args: Args, repo: Repo)
    requires StagedOk(files, repo)
    ensures StagedOk(Touched(files, args, repo), repo)
    ensures files.Keys <= Touched(files, args, repo).Keys
    ensures exists path :: SameExcept(files, Touched(files, args, repo), path)
  {
    hide Inherited, Safe, Writable, StagedOk;
    var next := Touched(files, args, repo);
    if EditOf(files, args, repo).Some? {
      var edit := EditOf(files, args, repo).value;
      EditIsWritable(files, args, repo);
      if Accepts(files, edit.0, edit.1, repo) { PutKeepsStagedOk(files, edit.0, edit.1, repo); }
      assert SameExcept(files, next, edit.0);
    } else {
      assert SameExcept(files, next, "");
    }
  }

  lemma OrdinaryAfter(files: Files, path: string, content: string)
    ensures Ordinary(files) <= files.Keys && |Ordinary(files)| <= |files|
    ensures Ordinary(files[path := content]) ==
      if Inherited(path) then Ordinary(files) else Ordinary(files) + {path}
    ensures |Ordinary(files[path := content])| ==
      |Ordinary(files)| + (if Inherited(path) || path in files then 0 else 1)
  {
    hide Inherited;
    assert |files.Keys| == |files|;
    FewerMembers(Ordinary(files), files.Keys);
    assert path in files && !Inherited(path) ==> path in Ordinary(files) && Ordinary(files) + {path} == Ordinary(files);
  }

  lemma {:induction false} FewerMembers<T>(a: set<T>, b: set<T>)
    requires a <= b
    ensures |a| <= |b|
  {
    assert b == a + (b - a);
  }

  lemma AddOne(files: Files, path: string, content: string)
    ensures |files[path := content]| == if path in files then |files| else |files| + 1
  {
    assert files[path := content].Keys == files.Keys + {path};
    assert |files[path := content].Keys| == |files[path := content]|;
  }

  /** The tool's limit of 200 files is outgrown by at most the inherited
      names, of which one is never staged. */
  lemma StagedAtMost(files: Files, repo: Repo)
    requires StagedOk(files, repo)
    ensures |files| <= MAX_FILES + |INHERITED|
  {
    var inherited := Elements(INHERITED);
    NoRepeats(INHERITED);
    assert files.Keys <= Ordinary(files) + inherited;
    assert |files.Keys| == |files|;
    FewerMembers(files.Keys, Ordinary(files) + inherited);
  }

  /** It is outgrown exactly by creating a file under an inherited name. */
  lemma LimitOutgrownIff(files: Files, args: Args, repo: Repo)
    requires |files| <= MAX_FILES
    ensures |Touched(files, args, repo)| > MAX_FILES <==>
      && |files| == MAX_FILES && args.CreateFile? && EditOf(files, args, repo).Some?
      && var path := EditOf(files, args, repo).value.0;
         path !in files && Inherited(path) && path != PROTO && repo.bytes(args.content) <= MAX_FILE_BYTES
  {
    hide Inherited;
    if EditOf(files, args, repo).Some? {
      var edit := EditOf(files, args, repo).value;
      AddOne(files, edit.0, edit.1);
    }
  }

  /** A create or replace that is answered as done has staged its content
      unless it names the one property that ignores text. */
  lemma SucceedsButNotStagedIff(files: Files, args: Args, repo: Repo)
    requires PROTO !in files && Succeeds(files, args, repo)
    ensures EditOf(files, args, repo).Some?
    ensures
      var edit, next := EditOf(files, args, repo).value, Touched(files, args, repo);
      !(edit.0 in next && next[edit.0] == edit.1) <==> edit.0 == PROTO
  {
    hide Inherited;
  }

  /** A rejected edit can still change the staged files: exactly when it is
      accepted, new, and takes the patch over its size limit. */
  lemma RejectedEditIsStagedIff(files: Files, args: Args, repo: Repo)
    ensures !Succeeds(files, args, repo) && Touched(files, args, repo) != files <==> Overflows(files, args, repo)
  {
    hide Inherited;
    if EditOf(files, args, repo).Some? {
      var edit := EditOf(files, args, repo).value;
      assert edit.0 in files && files[edit.0] == edit.1 ==> files[edit.0 := edit.1] == files;
      assert !(edit.0 in files && files[edit.0] == edit.1) ==> files[edit.0 := edit.1] != files by {
        assert files[edit.0 := edit.1][edit.0] == edit.1;
      }
    }
  }

  /** A replacement without patterns is a plain splice at the first match. */
  lemma ReplaceSplices(s: string, part: string, text: string)
    requires part != "" && Matches(s, part, 0) == 1 && forall i :: !PatternAt(text, i)
    ensures exists i :: OccursAt(s, part, i) && Replace(s, part, text) == s[..i] + text + s[i + |part|..]
  {
    OneMatch(s, part);
    var i := IndexOf(s, part, 0).value;
    PlainText(text, s[..i], part, s[i + |part|..]);
  }

  // ---------------------------------------------------------------------
  // Examples

  lemma PlainName(name: string)
    requires name != "" && forall i :: 0 <= i < |name| ==> PathChar(name[i]) && name[i] != '.' && name[i] != '/'
    ensures Safe(name)
  {
    forall i ensures !OccursAt(name, "..", i) {
      assert 0 <= i && i + 2 <= |name| ==> name[i..i + 2][0] == name[i];
    }
  }

  lemma {:induction false} LowerAt(s: string, i: nat)
    requires i < |s|
    ensures Lower(s)[i] == LowerChar(s[i])
  {
    if i == 0 {
    } else {
      LowerAt(s[1..], i - 1);
    }
  }

  lemma BlockedStarts(k: nat)
    requires k < |BLOCKED|
    ensures |BLOCKED[k]| >= 2 && BLOCKED[k][0] == '/' && BLOCKED[k][1] != 'c' && BLOCKED[k][1] != '_'
  {
  }

  lemma WritableName(name: string)
    requires name != "" && name[0] in "c_" && forall i :: 0 <= i < |name| ==> name[i] != '/'
    ensures Writable(name)
  {
    hide BLOCKED;
    var path := "/" + Lower(name);
    forall k, i | 0 <= k < |BLOCKED| ensures !OccursAt(path, BLOCKED[k], i) {
      BlockedStarts(k);
      if 0 <= i && i + |BLOCKED[k]| <= |path| {
        assert path[i..i + |BLOCKED[k]|][0] == path[i] && path[i..i + |BLOCKED[k]|][1] == path[i + 1];
        LowerAt(name, if i > 0 then i - 1 else 0);
      }
    }
  }

  function Cs(n: nat): string { if n == 0 then "" else "c" + Cs(n - 1) }

  /** n files, named c, cc, ccc and so on. */
  function Full(n: nat): Files { if n == 0 then map[] else Full(n - 1)[Cs(n) := "x"] }

  lemma {:induction false} CsAreNames(n: nat)
    ensures |Cs(n)| == n && (forall i :: 0 <= i < n ==> Cs(n)[i] == 'c')
    ensures n > 0 ==> Safe(Cs(n)) && Writable(Cs(n)) && !Inherited(Cs(n))
  {
    if n == 0 {
    } else {
      CsAreNames(n - 1);
      PlainName(Cs(n));
      WritableName(Cs(n));
      assert Cs(n)[0] == 'c' && (n > 1 ==> Cs(n)[1] == 'c');
    }
  }

  lemma ProtoInherited()
    ensures Inherited(PROTO)
  {
  }

  lemma NothingStaged(repo: Repo)
    ensures StagedOk(map[], repo)
  {
    assert Ordinary(map[]) == {};
  }

  lemma CreateIsEdit(files: Files, name: string, content: string, repo: Repo)
    requires Safe(name) && Writable(name)
    ensures EditOf(files, CreateFile(name, content), repo) == Some((name, content))
  {
  }

  lemma {:induction false} FullMember(n: nat, name: string)
    ensures name in Full(n) ==> |name| <= n && !Inherited(name) && forall i :: 0 <= i < |name| ==> name[i] == 'c'
  {
    hide Inherited;
    CsAreNames(n);
    if n == 0 {
    } else {
      FullMember(n - 1, name);
    }
  }

  lemma {:induction false} FullIsOk(n: nat, repo: Repo)
    requires n <= MAX_FILES && repo.bytes("x") <= MAX_FILE_BYTES
    ensures |Full(n)| == n && StagedOk(Full(n), repo)
  {
    hide Inherited, Safe, Writable, StagedOk;
    if n == 0 {
      NothingStaged(repo);
    } else {
      FullIsOk(n - 1, repo);
      CsAreNames(n);
      ProtoInherited();
      FullMember(n - 1, Cs(n));
      PutKeepsStagedOk(Full(n - 1), Cs(n), "x", repo);
      AddOne(Full(n - 1), Cs(n), "x");
    }
  }

  /** Beside two hundred files, one more is staged. */
  lemma TwoHundredFirstFile(files: Files, repo: Repo)
    requires repo.bytes("x") <= MAX_FILE_BYTES && |files| == MAX_FILES && "constructor" !in files
    ensures |Touched(files, CreateFile("constructor", "x"), repo)| == MAX_FILES + 1
  {
    hide EditOf, Safe, Writable;
    PlainName("constructor");
    WritableName("constructor");
    assert INHERITED[0] == "constructor";
    CreateIsEdit(files, "constructor", "x", repo);
    AddOne(files, "constructor", "x");
  }

  lemma LimitIsOutgrown(repo: Repo) returns (files: Files, args: Args)
    requires repo.bytes("x") <= MAX_FILE_BYTES
    ensures StagedOk(files, repo) && |files| == MAX_FILES && |Touched(files, args, repo)| == MAX_FILES + 1
  {
    hide Full, EditOf, StagedOk, Safe, Writable, Inherited, Touched;
    var n := MAX_FILES;
    files, args := Full(n), CreateFile("constructor", "x");
    FullIsOk(n, repo);
    FullMember(n, "constructor");
    assert "constructor"[1] == 'o';
    TwoHundredFirstFile(files, repo);
  }

  /** A file is reported as created and nothing is staged. */
  lemma ProtoIsNotStaged(repo: Repo)
    requires repo.bytes("x") <= MAX_FILE_BYTES && repo.patchBytes(map[]) <= MAX_PATCH_BYTES
    ensures Succeeds(map[], CreateFile(PROTO, "x"), repo) && Touched(map[], CreateFile(PROTO, "x"), repo) == map[]
  {
    PlainName(PROTO);
    WritableName(PROTO);
  }

  /** Every file a megabyte. */
  const LARGE_FILES := Repo(true, (p: string) => None, (t: string) => 1_000_000, (f: Files) => 1_000_000 * |f|)

  /** With twenty files of a megabyte staged, one more is rejected and stays
      staged. */
  lemma RejectedFileStays() returns (files: Files, args: Args)
    ensures StagedOk(files, LARGE_FILES) && Overflows(files, args, LARGE_FILES)
    ensures !Succeeds(files, args, LARGE_FILES) && Touched(files, args, LARGE_FILES) != files
  {
    hide Full, EditOf, StagedOk, Safe, Writable, Inherited;
    var n := 20;
    files, args := Full(n), CreateFile("cover", "x");
    FullIsOk(n, LARGE_FILES);
    FullMember(n, "cover");
    assert "cover"[1] == 'o' && "cover" != PROTO;
    PlainName("cover");
    WritableName("cover");
    CreateIsEdit(files, "cover", "x", LARGE_FILES);
    AddOne(files, "cover", "x");
    RejectedEditIsStagedIff(files, args, LARGE_FILES);
  }

  /** A file edited with a substitution pattern gets other text than asked. */
  lemma PatternIsNotWritten()
    ensures Replace("fee 5", "5", "$&0") == "fee 50" && "fee 50" != "fee $&0"
  {
    assert IndexOf("fee 5", "5", 0) == Some(4) by {
      forall i | 0 <= i < 4 ensures !OccursAt("fee 5", "5", i) {
        assert "fee 5"[i..i + 1][0] != '5';
      }
      assert OccursAt("fee 5", "5", 4);
    }
    assert Expand("$&0", "fee ", "5", "") == "50" by {
      assert "$&0"[2..] == "0";
    }
    assert "fee 5"[..4] == "fee " && "fee 5"[5..] == "";
  }

  // ---------------------------------------------------------------------
  // One response of the model: its calls, in order

  datatype Call = Call(id: Option<string>, args: Option<Args>)

  datatype Round = Broken | Going | Done(blocked: bool)

  /** Whether the calls break the run, finish it, or leave it going. */
  function RoundOf(calls: seq<Call>): Round {
    if calls == [] then Going
    else
      var call := calls[|calls| - 1];
      var before := RoundOf(calls[..|calls| - 1]);
      if before.Broken? || call.id.None? || call.args.None? then Broken
      else if call.args.value.Finish? then Done(call.args.value.blocked)
      else before
  }

  function FilesAfter(files: Files, calls: seq<Call>, repo: Repo): Files {
    if calls == [] then files
    else
      var call := calls[|calls| - 1];
      var before := FilesAfter(files, calls[..|calls| - 1], repo);
      if call.id.None? || call.args.None? then before else Touched(before, call.args.value, repo)
  }

  lemma {:induction false} RoundKeepsStagedOk(files: Files, calls: seq<Call>, repo: Repo)
    requires StagedOk(files, repo)
    ensures StagedOk(FilesAfter(files, calls, repo), repo)
    decreases |calls|
  {
    if calls == [] {
    } else {
      RoundKeepsStagedOk(files, calls[..|calls| - 1], repo);
      var call := calls[|calls| - 1];
      if call.args.Some? { ToolKeepsStagedOk(FilesAfter(files, calls[..|calls| - 1], repo), call.args.value, repo); }
    }
  }

  lemma {:induction false} BrokenStays(calls: seq<Call>, n: nat)
    requires n <= |calls| && RoundOf(calls[..n]).Broken?
    ensures RoundOf(calls).Broken?
    decreases |calls|
  {
    if n < |calls| {
      assert calls[..|calls| - 1][..n] == calls[..n];
      BrokenStays(calls[..|calls| - 1], n);
    } else {
      assert calls[..n] == calls;
    }
  }

  /** The tool loop of continueAppBuilderResponse. A broken call throws, so
      nothing of the round is saved. */
  method RunCalls(calls: seq<Call>, loaded: Files, repo: Repo) returns (round: Round, files: Files)
    ensures round == RoundOf(calls)
    ensures !round.Broken? ==> files == FilesAfter(loaded, calls, repo)
  {
    var staged := new Staging(loaded);
    round := Going;
    for n := 0 to |calls|
      invariant fresh(staged)
      invariant round == RoundOf(calls[..n]) && !round.Broken?
      invariant staged.files == FilesAfter(loaded, calls[..n], repo)
    {
      var call := calls[n];
      assert calls[..n + 1][..n] == calls[..n];
      if call.id.None? || call.args.None? {
        assert RoundOf(calls[..n + 1]).Broken?;
        BrokenStays(calls, n + 1);
        return Broken, loaded;
      }
      var reply := staged.RunTool(call.args.value, repo);
      if reply.Finished? { round := Done(reply.blocked); }
    }
    assert calls[..|calls|] == calls;
    files := staged.files;
  }
}
