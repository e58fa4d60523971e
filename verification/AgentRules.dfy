/** What the App Builder's tools let the model do, said on paths and texts:
    which paths are accepted, which are protected, what an edit stages, and
    what each limit is. */
module AgentRules {
  import opened Common
  import opened Lists
  import opened AgentTools

  // ---------------------------------------------------------------------
  // Paths

  /** A letter, a digit, an underscore, a dot, a hyphen or a slash. */
  ghost predicate Allowed(c: char) {
    var n := c as int;
    65 <= n <= 90 || 97 <= n <= 122 || 48 <= n <= 57 || n == 95 || n == 46 || n == 45 || n == 47
  }

  /** Some characters of it, each allowed, none the first of two dots. */
  ghost predicate Plain(path: string) {
    && path != "" && path[0] != '/'
    && (forall i :: 0 <= i < |path| ==> Allowed(path[i]))
    && (forall i :: 0 <= i < |path| - 1 ==> !(path[i] == '.' && path[i + 1] == '.'))
  }

  lemma AllowedIff(c: char)
    ensures PathChar(c) <==> Allowed(c)
  {
  }

  lemma DotsIff(path: string)
    ensures Contains(path, "..") <==> exists i :: 0 <= i < |path| - 1 && path[i] == '.' && path[i + 1] == '.'
  {
    forall i | 0 <= i < |path| - 1 ensures OccursAt(path, "..", i) <==> path[i] == '.' && path[i + 1] == '.' {
      assert path[i..i + 2] == [path[i], path[i + 1]];
    }
    if i :| 0 <= i < |path| - 1 && path[i] == '.' && path[i + 1] == '.' { assert OccursAt(path, "..", i); }
    if Contains(path, "..") {
      var i :| 0 <= i <= |path| - 2 && OccursAt(path, "..", i);
      assert path[i..i + 2][0] == path[i] && path[i..i + 2][1] == path[i + 1];
    }
  }

  lemma PlainIff(path: string)
    ensures Safe(path) <==> Plain(path)
  {
    hide PathChar, Allowed, Contains;
    DotsIff(path);
    forall c ensures PathChar(c) <==> Allowed(c) { AllowedIff(c); }
  }

  /** `path` without the slashes it starts with. */
  ghost predicate Unslashed(path: string, clean: string) {
    exists n :: 0 <= n <= |path| && clean == path[n..] && forall i :: 0 <= i < n ==> path[i] == '/'
  }

  lemma {:induction false} StrippedIs(path: string)
    ensures Unslashed(path, Stripped(path))
    ensures forall clean :: Unslashed(path, clean) && (clean == "" || clean[0] != '/') ==> clean == Stripped(path)
    decreases |path|
  {
    if path != "" && path[0] == '/' {
      StrippedIs(path[1..]);
      var n :| 0 <= n <= |path| - 1 && Stripped(path[1..]) == path[1..][n..] && forall i :: 0 <= i < n ==> path[1..][i] == '/';
      assert Stripped(path) == path[n + 1..];
      assert forall i :: 0 < i < n + 1 ==> path[i] == path[1..][i - 1];
      forall clean | Unslashed(path, clean) && (clean == "" || clean[0] != '/') ensures clean == Stripped(path) {
        var k :| 0 <= k <= |path| && clean == path[k..] && forall i :: 0 <= i < k ==> path[i] == '/';
        assert k > 0;
        assert clean == path[1..][k - 1..];
        assert Unslashed(path[1..], clean);
      }
    } else {
      assert path == path[0..];
    }
  }

  /** A path is accepted as itself without its leading slashes, and exactly
      when that is plain. */
  lemma SafePathIff(path: string, clean: string)
    ensures SafeRepositoryPath(path) == Some(clean) <==> Unslashed(path, clean) && Plain(clean)
  {
    hide Unslashed, Plain, Safe, Contains, PathChar;
    StrippedIs(path);
    StrippedHasNoSlash(path);
    PlainIff(clean);
    if Plain(clean) { PlainStarts(clean); }
    SafeIsNone(path);
  }

  lemma PlainStarts(clean: string)
    requires Plain(clean)
    ensures clean != "" && clean[0] != '/'
  {
  }

  lemma SafeIsNone(path: string)
    ensures SafeRepositoryPath(path) == if Safe(Stripped(path)) then Some(Stripped(path)) else None
  {
    StrippedHasNoSlash(path);
  }

  // ---------------------------------------------------------------------
  // Protected paths

  ghost predicate Names(path: string, part: string) { Contains("/" + Lower(path), part) }

  /** Environment and package files, workflows, database and migrations,
      deployment configuration, middleware and proxies, authentication,
      identity, access, payments and billing: in any letter case, and at any
      depth. */
  ghost predicate Protected(path: string) {
    || Names(path, "/.env") || Names(path, "/.github/") || Names(path, "/db/") || Names(path, "/drizzle/")
    || Names(path, "/migrations/") || Names(path, "/package.json") || Names(path, "/package-lock.json")
    || Names(path, "/pnpm-lock.yaml") || Names(path, "/yarn.lock") || Names(path, "/vercel.json")
    || Names(path, "/next.config.") || Names(path, "/proxy.ts") || Names(path, "/middleware.ts")
    || Names(path, "/scripts/deploy") || Names(path, "/api/auth/") || Names(path, "/lib/auth/")
    || Names(path, "/lib/identity/") || Names(path, "/lib/access/") || Names(path, "/payments/")
    || Names(path, "/billing/")
  }

  lemma Blocks(path: string, i: int)
    requires 0 <= i < |BLOCKED|
    ensures Contains("/" + Lower(path), BLOCKED[i]) ==> Protected(path)
  {
    hide Contains;
  }

  /** Exactly the protected paths are not writable. */
  lemma ProtectedIff(path: string)
    ensures Writable(path) <==> !Protected(path)
  {
    hide Contains;
    forall i | 0 <= i < |BLOCKED| ensures Contains("/" + Lower(path), BLOCKED[i]) ==> Protected(path) { Blocks(path, i); }
    if Writable(path) { EachBlocked(path); }
  }

  lemma EachBlocked(path: string)
    requires Writable(path)
    ensures !Protected(path)
  {
    hide Contains;
    var q := "/" + Lower(path);
    assert |BLOCKED| == 20;
    assert !Contains(q, BLOCKED[0]) && !Contains(q, BLOCKED[1]) && !Contains(q, BLOCKED[2]) && !Contains(q, BLOCKED[3]);
    assert !Contains(q, BLOCKED[4]) && !Contains(q, BLOCKED[5]) && !Contains(q, BLOCKED[6]) && !Contains(q, BLOCKED[7]);
    assert !Contains(q, BLOCKED[8]) && !Contains(q, BLOCKED[9]) && !Contains(q, BLOCKED[10]) && !Contains(q, BLOCKED[11]);
    assert !Contains(q, BLOCKED[12]) && !Contains(q, BLOCKED[13]) && !Contains(q, BLOCKED[14]) && !Contains(q, BLOCKED[15]);
    assert !Contains(q, BLOCKED[16]) && !Contains(q, BLOCKED[17]) && !Contains(q, BLOCKED[18]) && !Contains(q, BLOCKED[19]);
  }

  lemma ContainsIff(s: string, part: string)
    ensures Contains(s, part) <==> exists before: string, after: string :: s == before + part + after
  {
    if Contains(s, part) {
      var i :| 0 <= i <= |s| - |part| && OccursAt(s, part, i);
      assert s == s[..i] + part + s[i + |part|..];
    }
    if before: string, after: string :| s == before + part + after {
      assert s[|before|..|before| + |part|] == part;
      assert OccursAt(s, part, |before|);
    }
  }

  // ---------------------------------------------------------------------
  // Edits

  /** Names every object has. */
  ghost predicate OnEveryObject(name: string) {
    || name == "__proto__" || name == "constructor" || name == "hasOwnProperty" || name == "isPrototypeOf"
    || name == "propertyIsEnumerable" || name == "toLocaleString" || name == "toString" || name == "valueOf"
    || name == "__defineGetter__" || name == "__defineSetter__" || name == "__lookupGetter__"
    || name == "__lookupSetter__"
  }

  lemma InheritedIff(name: string)
    ensures Inherited(name) <==> OnEveryObject(name)
  {
    assert |INHERITED| == 11;
    assert INHERITED[0] == "constructor" && INHERITED[1] == "hasOwnProperty" && INHERITED[2] == "isPrototypeOf";
    assert INHERITED[3] == "propertyIsEnumerable" && INHERITED[4] == "toLocaleString" && INHERITED[5] == "toString";
    assert INHERITED[6] == "valueOf" && INHERITED[7] == "__defineGetter__" && INHERITED[8] == "__defineSetter__";
    assert INHERITED[9] == "__lookupGetter__" && INHERITED[10] == "__lookupSetter__";
  }

  /** A file can be created exactly under an accepted, unprotected path, and
      with the content asked for. */
  lemma CreateEditIff(files: Files, raw: string, content: string, repo: Repo, path: string, text: string)
    ensures EditOf(files, CreateFile(raw, content), repo) == Some((path, text)) <==>
      Unslashed(raw, path) && Plain(path) && !Protected(path) && text == content
  {
    hide Unslashed, Plain, Protected, Writable;
    SafePathIff(raw, path);
    ProtectedIff(path);
  }

  /** What a file reads as: its staged text, or else what the repository has,
      unless its name is found on every object. */
  ghost predicate ReadsAs(files: Files, path: string, repo: Repo, text: string) {
    if path in files then files[path] == text else !OnEveryObject(path) && repo.read(path) == Some(text)
  }

  /** An edit replaces exactly in such a file, when the text to replace is not
      empty and counted once in it. */
  lemma ReplaceEditIff(
    files: Files, raw: string, oldText: string, newText: string, repo: Repo, path: string, text: string)
    ensures EditOf(files, ReplaceInFile(raw, oldText, newText), repo) == Some((path, text)) <==>
      && Unslashed(raw, path) && Plain(path) && !Protected(path) && oldText != ""
      && exists current :: ReadsAs(files, path, repo, current) && Matches(current, oldText, 0) == 1
           && text == Replace(current, oldText, newText)
  {
    hide Unslashed, Plain, Protected, Writable, Inherited, OnEveryObject, Replace, Matches;
    SafePathIff(raw, path);
    ProtectedIff(path);
    InheritedIff(path);
    var current := Current(files, path, repo);
    if current.Some? { assert ReadsAs(files, path, repo, current.value); }
  }

  /** No other call is an edit. */
  lemma OthersEditNothing(files: Files, args: Args, repo: Repo)
    requires !args.CreateFile? && !args.ReplaceInFile?
    ensures EditOf(files, args, repo) == None && Touched(files, args, repo) == files
  {
  }

  /** An edit is staged while fewer than two hundred files are, or over one
      that is found, and if its text is at most a million bytes; then it is the
      file's text, unless its name takes no text. Nothing else moves. */
  lemma StagedIff(files: Files, args: Args, repo: Repo, path: string, text: string)
    requires EditOf(files, args, repo) == Some((path, text))
    ensures
      var room := |files| < 200 || path in files || OnEveryObject(path);
      Touched(files, args, repo) ==
        if room && repo.bytes(text) <= 1000000 && (path in files || path != "__proto__") then files[path := text] else files
    ensures Succeeds(files, args, repo) <==>
      && (|files| < 200 || path in files || OnEveryObject(path)) && repo.bytes(text) <= 1000000
      && repo.patchBytes(Touched(files, args, repo)) <= 20000000
  {
    hide Inherited, OnEveryObject;
    InheritedIff(path);
  }

  // ---------------------------------------------------------------------
  // Substitution

  /** The four patterns stand for a dollar sign, the text found, the text
      before it and the text after it. */
  lemma PatternsStandFor(pre: string, found: string, post: string, rest: string)
    ensures Expand("$$" + rest, pre, found, post) == "$" + Expand(rest, pre, found, post)
    ensures Expand("$&" + rest, pre, found, post) == found + Expand(rest, pre, found, post)
    ensures Expand("$`" + rest, pre, found, post) == pre + Expand(rest, pre, found, post)
    ensures Expand("$'" + rest, pre, found, post) == post + Expand(rest, pre, found, post)
  {
    assert ("$$" + rest)[2..] == rest && ("$&" + rest)[2..] == rest;
    assert ("$`" + rest)[2..] == rest && ("$'" + rest)[2..] == rest;
  }
}
