// Where a downloaded file lands: peer-supplied names are sanitised, and an existing
// path is never reused.

module OutputPath {

  import opened Prelude

  // ----- Sanitising one path component -----

  predicate IsSpace(c: char) { c == ' ' || c == '\t' || c == '\r' || c == '\n' }

  predicate IsUnsafe(c: char) {
    c == '/' || c == '\\' || c == '\0' || c as int < 0x20
  }

  /** Characters that may not begin a name: white space is trimmed, dots and dashes are
      stripped. */
  predicate IsLeading(c: char) { IsSpace(c) || c == '.' || c == '-' }

  /** What a leading run consists of: white space only, or anything that may not lead. */
  datatype Run = Spaces | AnyLeading

  predicate InRun(run: Run, c: char) {
    match run
    case Spaces => IsSpace(c)
    case AnyLeading => IsLeading(c)
  }

  function Neutralised(s: string): (r: string)
    ensures |r| == |s|
    ensures forall i | 0 <= i < |s| :: r[i] == if IsUnsafe(s[i]) then '_' else s[i]
  {
    seq(|s|, i requires 0 <= i < |s| => if IsUnsafe(s[i]) then '_' else s[i])
  }

  function DropLeading(run: Run, s: string): (r: string)
    ensures |r| <= |s|
  {
    if s == "" || !InRun(run, s[0]) then s else DropLeading(run, s[1..])
  }

  function TrimEnd(s: string): (r: string)
    ensures |r| <= |s|
  {
    if s == "" || !IsSpace(s[|s| - 1]) then s else TrimEnd(s[..|s| - 1])
  }

  lemma {:induction false} DropLeadingShape(run: Run, s: string)
    ensures var r := DropLeading(run, s);
      (r != "" ==> !InRun(run, r[0])) && forall c | c in r :: c in s
  {
    if s != "" && InRun(run, s[0]) {
      DropLeadingShape(run, s[1..]);
    }
  }

  lemma {:induction false} TrimEndShape(s: string)
    ensures var r := TrimEnd(s);
      r <= s && (r != "" ==> !IsSpace(r[|r| - 1]))
  {
    if s != "" && IsSpace(s[|s| - 1]) {
      TrimEndShape(s[..|s| - 1]);
    }
  }

  /** White space off both ends, as the library's String::Trimmed() does. */
  function Trimmed(s: string): string {
    TrimEnd(DropLeading(Spaces, s))
  }

  /** The name in one cut: neutralise, drop everything that may not lead, trim the end. */
  function Sanitized(component: string): string {
    TrimEnd(DropLeading(AnyLeading, Neutralised(component)))
  }

  predicate IsSafeComponent(s: string) {
    && (forall c | c in s :: !IsUnsafe(c))
    && (s != "" ==> !IsLeading(s[0]) && !IsSpace(s[|s| - 1]))
  }

  lemma {:induction false} DropLeadingSpaceFirst(s: string)
    ensures DropLeading(AnyLeading, DropLeading(Spaces, s)) == DropLeading(AnyLeading, s)
  {
    if s != "" && IsSpace(s[0]) {
      DropLeadingSpaceFirst(s[1..]);
    }
  }

  /** Trimming the end commutes with dropping a leading run, except that a string made
      of nothing else disappears either way. */
  lemma {:induction false} TrimEndDropLeading(s: string)
    ensures TrimEnd(DropLeading(AnyLeading, TrimEnd(s))) == TrimEnd(DropLeading(AnyLeading, s))
  {
    if s != "" && IsSpace(s[|s| - 1]) {
      var init := s[..|s| - 1];
      TrimEndDropLeading(init);
      DropLeadingSnocSpace(init, s[|s| - 1]);
      assert s == init + [s[|s| - 1]];
    }
  }

  lemma {:induction false} DropLeadingSnocSpace(s: string, c: char)
    requires IsSpace(c)
    ensures TrimEnd(DropLeading(AnyLeading, s + [c])) == TrimEnd(DropLeading(AnyLeading, s))
  {
    if s == "" {
      assert DropLeading(AnyLeading, [c]) == "";
    } else if IsLeading(s[0]) {
      assert (s + [c])[1..] == s[1..] + [c];
      DropLeadingSnocSpace(s[1..], c);
    } else {
      assert (s + [c])[..|s|] == s;
    }
  }

  /** Separators and control characters become underscores, and everything else stays. */
  lemma NeutralisedExactly(s: string, i: nat)
    requires i < |s|
    ensures Neutralised(s)[i] == if s[i] in "/\\" || s[i] as int < 0x20 then '_' else s[i]
  {
  }

  method Neutralise(component: string) returns (safe: string)
    ensures safe == Neutralised(component)
  {
    safe := "";
    for i := 0 to |component|
      invariant safe == Neutralised(component)[..i]
    {
      if IsUnsafe(component[i]) {
        safe := safe + ['_'];
      } else {
        safe := safe + [component[i]];
      }
    }
  }

  /** The strip loop of the program, one character and one re-trim at a time, computes
      the one-cut definition. */
  method SanitizePathComponent(component: string) returns (safe: string)
    ensures safe == Sanitized(component)
  {
    safe := Neutralise(component);
    safe := StripOnce(safe);
    while safe != "" && (safe[0] == '.' || safe[0] == '-')
      invariant TrimEnd(DropLeading(AnyLeading, safe)) == Sanitized(component)
      invariant safe != "" ==> !IsSpace(safe[0]) && !IsSpace(safe[|safe| - 1])
      decreases |safe|
    {
      safe := StripOnce(safe[1..]);
    }
    if safe == "." || safe == ".." {
      safe := "";
    }
  }

  method StripOnce(s: string) returns (r: string)
    ensures r == Trimmed(s) && |r| <= |s|
    ensures TrimEnd(DropLeading(AnyLeading, r)) == TrimEnd(DropLeading(AnyLeading, s))
    ensures r != "" ==> !IsSpace(r[0]) && !IsSpace(r[|r| - 1])
  {
    r := Trimmed(s);
    DropLeadingShape(Spaces, s);
    TrimEndShape(DropLeading(Spaces, s));
    DropLeadingSpaceFirst(s);
    TrimEndDropLeading(DropLeading(Spaces, s));
  }

  lemma SanitizedIsSafe(component: string)
    ensures IsSafeComponent(Sanitized(component))
    ensures var r := Sanitized(component);
      && '/' !in r && '\\' !in r && (forall c | c in r :: c as int >= 0x20)
      && (r != "" ==> r[0] !in ".- " && r[|r| - 1] != ' ')
  {
    var flat := Neutralised(component);
    var cut := DropLeading(AnyLeading, flat);
    DropLeadingShape(AnyLeading, flat);
    TrimEndShape(cut);
  }

  /** The safe components are exactly the fixed points, so sanitising is idempotent and
      leaves every already safe name alone. */
  lemma SafeIffUnchanged(s: string)
    ensures Sanitized(s) == s <==> IsSafeComponent(s)
    ensures Sanitized(Sanitized(s)) == Sanitized(s)
  {
    SanitizedIsSafe(s);
    if IsSafeComponent(s) {
      SafeUnchanged(s);
    }
    SafeUnchanged(Sanitized(s));
  }

  lemma SafeUnchanged(s: string)
    requires IsSafeComponent(s)
    ensures Sanitized(s) == s
  {
    assert Neutralised(s) == s by {
      forall i | 0 <= i < |s| ensures Neutralised(s)[i] == s[i] {
        assert s[i] in s;
      }
    }
  }

  // ----- Choosing the path -----

  /** A component that names an entry of its directory and nothing else. */
  predicate IsPlainName(s: string) {
    s != "" && s != "." && s != ".." && '/' !in s
  }

  /** "/a/b/c" for ["a", "b", "c"]. */
  function Joined(components: seq<string>): string {
    if components == [] then ""
    else Joined(components[..|components| - 1]) + "/" + components[|components| - 1]
  }

  lemma JoinedSnoc(base: string, components: seq<string>, leaf: string)
    ensures base + Joined(components + [leaf]) == base + Joined(components) + "/" + leaf
  {
    var all := components + [leaf];
    assert all[..|all| - 1] == components;
    assert base + (Joined(components) + "/" + leaf) == base + Joined(components) + "/" + leaf;
  }

  /** Lexically inside: base followed by one or more plain names. */
  ghost predicate LiesUnder(base: string, path: string) {
    exists components: seq<string> ::
      && components != []
      && (forall c | c in components :: IsPlainName(c))
      && path == base + Joined(components)
  }

  /** Maximal runs without '/', in order; empty runs are harmless because an empty
      component is dropped after sanitising. */
  function Tokens(path: string): seq<string> {
    if '/' in path then
      var i := FirstSlash(path);
      [path[..i]] + Tokens(path[i + 1..])
    else [path]
  }

  function FirstSlash(path: string): (i: nat)
    requires '/' in path
    ensures i < |path| && path[i] == '/' && '/' !in path[..i]
  {
    if path[0] == '/' then 0 else 1 + FirstSlash(path[1..])
  }

  function SafeComponents(tokens: seq<string>): seq<string> {
    if tokens == [] then []
    else
      var before := SafeComponents(tokens[..|tokens| - 1]);
      var safe := Sanitized(tokens[|tokens| - 1]);
      if safe == "" then before else before + [safe]
  }

  function TargetDirectory(base: string, retainPaths: bool, relativePath: string): string {
    if retainPaths then base + Joined(SafeComponents(Tokens(relativePath))) else base
  }

  function LastDot(s: string): (i: int)
    ensures -1 <= i < |s|
    ensures i >= 0 ==> s[i] == '.'
  {
    if s == "" then -1
    else if s[|s| - 1] == '.' then |s| - 1
    else LastDot(s[..|s| - 1])
  }

  function RenamedLeaf(name: string, attempt: nat): string {
    var dot := LastDot(name);
    var stem := if dot > 0 then name[..dot] else name;
    var extension := if dot > 0 then name[dot..] else "";
    stem + " (" + Decimal(attempt) + ")" + extension
  }

  const PLAIN_ATTEMPT: nat := 1
  const MAXIMUM_RENAME_ATTEMPTS: nat := 64

  /** Candidate 1 is the plain name; candidate k >= 2 carries "(k)" before the extension. */
  function Candidate(directory: string, name: string, k: nat): string {
    directory + ("/" + if k < 2 then name else RenamedLeaf(name, k))
  }

  /** The first candidate that is not taken, or nothing when all 63 are. */
  function LeastFree(directory: string, name: string, taken: set<string>, k: nat): (r: Option<string>)
    ensures r.None? ==> forall j | k <= j < MAXIMUM_RENAME_ATTEMPTS :: Candidate(directory, name, j) in taken
    ensures r.Some? ==> exists j ::
      && k <= j < MAXIMUM_RENAME_ATTEMPTS && r.value == Candidate(directory, name, j)
      && r.value !in taken
      && forall i | k <= i < j :: Candidate(directory, name, i) in taken
    decreases MAXIMUM_RENAME_ATTEMPTS - k
  {
    if k >= MAXIMUM_RENAME_ATTEMPTS then None
    else if Candidate(directory, name, k) !in taken then Some(Candidate(directory, name, k))
    else LeastFree(directory, name, taken, k + 1)
  }

  /** The path a download opens for a peer-supplied name and sub-path, if any. */
  function ChosenPath(base: string, retainPaths: bool, fileName: string, relativePath: string,
                      taken: set<string>): Option<string>
  {
    var safeName := Sanitized(fileName);
    if safeName == "" then None
    else LeastFree(TargetDirectory(base, retainPaths, relativePath), safeName, taken, PLAIN_ATTEMPT)
  }

  method BuildDirectory(base: string, retainPaths: bool, relativePath: string) returns (directory: string)
    ensures directory == TargetDirectory(base, retainPaths, relativePath)
  {
    directory := base;
    if retainPaths {
      var tokens := Tokens(relativePath);
      var safeSoFar: seq<string> := [];
      for i := 0 to |tokens|
        invariant safeSoFar == SafeComponents(tokens[..i])
        invariant directory == base + Joined(safeSoFar)
      {
        var safeComponent := SanitizePathComponent(tokens[i]);
        assert tokens[..i + 1][..i] == tokens[..i];
        if safeComponent != "" {
          JoinedSnoc(base, safeSoFar, safeComponent);
          safeSoFar := safeSoFar + [safeComponent];
          directory := directory + "/" + safeComponent;
        }
      }
      assert tokens[..|tokens|] == tokens;
    }
  }

  method PickCandidate(directory: string, safeName: string, taken: set<string>) returns (r: Option<string>)
    ensures r == LeastFree(directory, safeName, taken, PLAIN_ATTEMPT)
  {
    var candidate := directory + ("/" + safeName);
    if candidate in taken {
      var attempt := 2;
      while attempt < MAXIMUM_RENAME_ATTEMPTS
        invariant 2 <= attempt <= MAXIMUM_RENAME_ATTEMPTS
        invariant LeastFree(directory, safeName, taken, attempt) == LeastFree(directory, safeName, taken, PLAIN_ATTEMPT)
      {
        candidate := directory + ("/" + RenamedLeaf(safeName, attempt));
        if candidate !in taken {
          return Some(candidate);
        }
        attempt := attempt + 1;
      }
      return None;
    }
    r := Some(candidate);
  }

  method ChooseOutputPath(base: string, retainPaths: bool, fileName: string, relativePath: string,
                          taken: set<string>) returns (r: Option<string>)
    ensures r == ChosenPath(base, retainPaths, fileName, relativePath, taken)
  {
    var safeName := SanitizePathComponent(fileName);
    if safeName == "" {
      return None;
    }
    var directory := BuildDirectory(base, retainPaths, relativePath);
    r := PickCandidate(directory, safeName, taken);
  }

  // ----- Output placement -----

  lemma {:induction false} SafeComponentsArePlain(tokens: seq<string>)
    ensures forall c | c in SafeComponents(tokens) :: IsPlainName(c)
  {
    if tokens != [] {
      var last := |tokens| - 1;
      SafeComponentsArePlain(tokens[..last]);
      SanitizedIsSafe(tokens[last]);
    }
  }

  lemma RenamedLeafIsPlain(name: string, k: nat)
    requires name != "" && IsSafeComponent(name)
    ensures IsPlainName(name)
    ensures IsPlainName(RenamedLeaf(name, k))
  {
    assert '/' !in name by {
      assert forall c | c in name :: c != '/';
    }
    var dot := LastDot(name);
    var stem := if dot > 0 then name[..dot] else name;
    var extension := if dot > 0 then name[dot..] else "";
    assert RenamedLeaf(name, k)[0] == name[0];
  }

  /** Whatever name and sub-path a peer sends, the file that is opened lies lexically
      under the download directory and was not there before. */
  lemma ChosenPathIsContained(base: string, retainPaths: bool, fileName: string, relativePath: string,
                              taken: set<string>)
    ensures var r := ChosenPath(base, retainPaths, fileName, relativePath, taken);
      r.Some? ==> LiesUnder(base, r.value) && r.value !in taken && r.value != ""
  {
    var r := ChosenPath(base, retainPaths, fileName, relativePath, taken);
    if r.Some? {
      SanitizedIsSafe(fileName);
      var folders := if retainPaths then SafeComponents(Tokens(relativePath)) else [];
      SafeComponentsArePlain(Tokens(relativePath));
      CandidateIsContained(base, folders, TargetDirectory(base, retainPaths, relativePath),
                           Sanitized(fileName), taken, r.value);
    }
  }

  lemma CandidateIsContained(base: string, folders: seq<string>, directory: string, name: string,
                             taken: set<string>, path: string)
    requires forall c | c in folders :: IsPlainName(c)
    requires directory == base + Joined(folders)
    requires name != "" && IsSafeComponent(name)
    requires LeastFree(directory, name, taken, PLAIN_ATTEMPT) == Some(path)
    ensures LiesUnder(base, path) && path != ""
  {
    var k :| PLAIN_ATTEMPT <= k < MAXIMUM_RENAME_ATTEMPTS && path == Candidate(directory, name, k);
    RenamedLeafIsPlain(name, k);
    var leaf := if k < 2 then name else RenamedLeaf(name, k);
    JoinedSnoc(base, folders, leaf);
    LeafAppended(directory, leaf, path);
    var components := folders + [leaf];
    assert forall c | c in components :: IsPlainName(c);
    assert path == base + Joined(components);
  }

  lemma LeafAppended(directory: string, leaf: string, path: string)
    requires path == directory + ("/" + leaf)
    ensures path == directory + "/" + leaf && path != ""
  {
    assert directory + ("/" + leaf) == directory + "/" + leaf;
  }

  /** A free candidate is always found while one exists: failure means that the name is
      unusable or that all 63 spellings are taken. */
  lemma ChosenPathFailsOnlyWhenExhausted(base: string, retainPaths: bool, fileName: string,
                                         relativePath: string, taken: set<string>)
    ensures ChosenPath(base, retainPaths, fileName, relativePath, taken).None? <==>
      (|| Sanitized(fileName) == ""
       || forall k | PLAIN_ATTEMPT <= k < MAXIMUM_RENAME_ATTEMPTS ::
            Candidate(TargetDirectory(base, retainPaths, relativePath), Sanitized(fileName), k) in taken)
  {
  }

  // ----- What the names and folders become -----

  /** What sanitising takes away and what it leaves: from the neutralised name, a run that
      may not lead at the front and white space at the end. With SanitizedIsSafe this is
      the one way of cutting it. */
  lemma SanitizedIsTheMiddle(component: string) returns (front: string, back: string)
    ensures front + Sanitized(component) + back == Neutralised(component)
    ensures (forall c | c in front :: IsSpace(c) || c == '.' || c == '-') && (forall c | c in back :: IsSpace(c))
  {
    hide Neutralised, DropLeading, TrimEnd;
    var flat := Neutralised(component);
    var cut := DropLeading(AnyLeading, flat);
    front := DroppedFront(flat);
    back := DroppedBack(cut);
    Regroup(front, TrimEnd(cut), back);
  }

  lemma {:induction false} DroppedFront(s: string) returns (front: string)
    ensures front + DropLeading(AnyLeading, s) == s && forall c | c in front :: IsLeading(c)
  {
    front := "";
    if s != "" && IsLeading(s[0]) {
      var rest := DroppedFront(s[1..]);
      front := [s[0]] + rest;
      assert DropLeading(AnyLeading, s) == DropLeading(AnyLeading, s[1..]);
      hide DropLeading;
      Regroup([s[0]], rest, DropLeading(AnyLeading, s));
    }
  }

  lemma {:induction false} DroppedBack(s: string) returns (back: string)
    ensures TrimEnd(s) + back == s && forall c | c in back :: IsSpace(c)
  {
    back := "";
    if s != "" && IsSpace(s[|s| - 1]) {
      var rest := DroppedBack(s[..|s| - 1]);
      back := rest + [s[|s| - 1]];
      assert TrimEnd(s) == TrimEnd(s[..|s| - 1]);
      hide TrimEnd;
      Regroup(TrimEnd(s), rest, [s[|s| - 1]]);
    }
  }

  lemma {:induction false} LastDotIs(stem: string, extension: string)
    requires '.' !in extension
    ensures LastDot(stem + "." + extension) == |stem|
    decreases |extension|
  {
    var s := stem + "." + extension;
    if extension == "" {
      assert s[|s| - 1] == '.';
    } else {
      var init := extension[..|extension| - 1];
      assert s[..|s| - 1] == stem + "." + init && s[|s| - 1] == extension[|extension| - 1];
      LastDotIs(stem, init);
    }
  }

  lemma {:induction false} LastDotAtFront(s: string)
    requires forall i | 0 < i < |s| :: s[i] != '.'
    ensures LastDot(s) <= 0
  {
    if |s| > 1 {
      LastDotAtFront(s[..|s| - 1]);
    }
  }

  /** The number goes before the extension, which is what follows the last dot that is not
      the first character; without one it goes to the end. */
  lemma RenameKeepsExtension(name: string, k: nat)
    ensures forall stem, extension: string ::
      name == stem + "." + extension && stem != "" && '.' !in extension ==>
        RenamedLeaf(name, k) == stem + " (" + Decimal(k) + ")" + ("." + extension)
    ensures (forall i | 0 < i < |name| :: name[i] != '.') ==> RenamedLeaf(name, k) == name + " (" + Decimal(k) + ")"
  {
    forall stem, extension: string | name == stem + "." + extension && stem != "" && '.' !in extension
      ensures RenamedLeaf(name, k) == stem + " (" + Decimal(k) + ")" + ("." + extension)
    {
      LastDotIs(stem, extension);
      assert name[..|stem|] == stem && name[|stem|..] == "." + extension;
    }
    if forall i | 0 < i < |name| :: name[i] != '.' {
      LastDotAtFront(name);
    }
  }

  /** The plain spelling if it is free, and otherwise the first numbered one that is. */
  lemma PlainSpellingFirst(base: string, retainPaths: bool, fileName: string, relativePath: string, taken: set<string>)
    ensures var plain := TargetDirectory(base, retainPaths, relativePath) + ("/" + Sanitized(fileName));
      var r := ChosenPath(base, retainPaths, fileName, relativePath, taken);
      && (Sanitized(fileName) != "" && plain !in taken ==> r == Some(plain))
      && (r.Some? && plain in taken ==> exists k :: 2 <= k < 64 && NumberedAndFree(base, retainPaths, fileName,
                                                                                     relativePath, taken, k, r.value))
  {
    var directory, name := TargetDirectory(base, retainPaths, relativePath), Sanitized(fileName);
    var r := ChosenPath(base, retainPaths, fileName, relativePath, taken);
    assert Candidate(directory, name, PLAIN_ATTEMPT) == directory + ("/" + name);
    if r.Some? && directory + ("/" + name) in taken {
      var k :| PLAIN_ATTEMPT <= k < MAXIMUM_RENAME_ATTEMPTS && r.value == Candidate(directory, name, k)
        && r.value !in taken && forall j | PLAIN_ATTEMPT <= j < k :: Candidate(directory, name, j) in taken;
      assert forall j | 2 <= j < k :: Candidate(directory, name, j) == directory + ("/" + RenamedLeaf(name, j));
      assert NumberedAndFree(base, retainPaths, fileName, relativePath, taken, k, r.value);
    }
  }

  /** The k-th spelling is free, and all numbered ones before it are taken. */
  ghost predicate NumberedAndFree(base: string, retainPaths: bool, fileName: string, relativePath: string,
                                  taken: set<string>, k: nat, path: string)
  {
    var directory, name := TargetDirectory(base, retainPaths, relativePath), Sanitized(fileName);
    && path == directory + ("/" + RenamedLeaf(name, k)) && path !in taken
    && forall j | 2 <= j < k :: directory + ("/" + RenamedLeaf(name, j)) in taken
  }

  lemma {:induction false} FirstSlashAt(s: string, i: nat)
    requires i < |s| && s[i] == '/' && '/' !in s[..i]
    ensures '/' in s && FirstSlash(s) == i
  {
    if i > 0 {
      assert s[..i][0] == s[0] && s[1..][..i - 1] == s[..i][1..];
      FirstSlashAt(s[1..], i - 1);
    }
  }

  lemma TokensFrom(path: string, i: nat)
    requires i < |path| && path[i] == '/' && '/' !in path[..i]
    ensures Tokens(path) == [path[..i]] + Tokens(path[i + 1..])
  {
    hide FirstSlash;
    FirstSlashAt(path, i);
  }

  lemma TokensOfOne(path: string)
    requires '/' !in path
    ensures Tokens(path) == [path]
  {
  }

  lemma {:induction false} TokensSnoc(path: string, last: string)
    requires '/' !in last
    ensures Tokens(path + "/" + last) == Tokens(path) + [last]
    decreases |path|
  {
    hide Tokens;
    var all := path + "/" + last;
    if '/' in path {
      var i := FirstSlash(path);
      assert all[..i] == path[..i] && all[i + 1..] == path[i + 1..] + "/" + last;
      TokensFrom(path, i);
      TokensFrom(all, i);
      TokensSnoc(path[i + 1..], last);
    } else {
      assert all[..|path|] == path && all[|path| + 1..] == last;
      TokensFrom(all, |path|);
      TokensOfOne(path);
      TokensOfOne(last);
    }
  }

  lemma SafeComponentsSnoc(tokens: seq<string>, t: string)
    ensures SafeComponents(tokens + [t]) == SafeComponents(tokens) + if Sanitized(t) == "" then [] else [Sanitized(t)]
  {
    hide Sanitized;
    assert (tokens + [t])[..|tokens|] == tokens;
  }

  /** The sharer's folders are kept, each under its sanitised name, in their order; one whose
      name comes to nothing is left out; and none is kept if paths are not retained. */
  lemma FoldersAreKept(base: string, path: string, folder: string)
    requires '/' !in folder
    ensures var last := if Sanitized(folder) == "" then "" else "/" + Sanitized(folder);
      && TargetDirectory(base, true, folder) == base + last
      && TargetDirectory(base, true, path + "/" + folder) == TargetDirectory(base, true, path) + last
      && TargetDirectory(base, false, path) == base
  {
    hide Tokens, SafeComponents, Sanitized, Joined;
    var safe := Sanitized(folder);
    TokensSnoc(path, folder);
    TokensOfOne(folder);
    SafeComponentsSnoc(Tokens(path), folder);
    SafeComponentsSnoc([], folder);
    assert [] + [folder] == [folder] && base + "" == base;
    FolderJoined(base, SafeComponents(Tokens(path)), safe);
    NoFolders(base);
    FolderJoined(base, [], safe);
  }

  lemma NoFolders(base: string)
    ensures SafeComponents([]) == [] && base + Joined([]) == base
  {
  }

  lemma FolderJoined(base: string, before: seq<string>, safe: string)
    ensures base + Joined(before + [safe]) == base + Joined(before) + ("/" + safe)
    ensures base + Joined(before + []) == base + Joined(before) + ""
  {
    hide Joined;
    JoinedSnoc(base, before, safe);
    Regroup(base + Joined(before), "/", safe);
    assert before + [] == before;
  }
}
