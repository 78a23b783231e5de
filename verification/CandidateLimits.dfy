/** Which candidates the checkpoint and the publisher's snapshot accept (models.py, github.py), in terms of the
    candidate itself: paths by where they lead, files by their bytes. */
module CandidateLimits {
  import opened Wrappers
  import opened Base64
  import opened Ordering
  import opened Candidates

  // ----- Paths.

  /** Where a walk from `dir` ends: an empty part or a dot stays, two dots go up, and nothing is above the root. */
  function Walk(dir: seq<string>, parts: seq<string>): Option<seq<string>>
    decreases parts
  {
    if parts == [] then Some(dir)
    else if parts[0] == "" || parts[0] == "." then Walk(dir, parts[1..])
    else if parts[0] == ".." then if dir == [] then None else Walk(dir[..|dir| - 1], parts[1..])
    else Walk(dir + [parts[0]], parts[1..])
  }

  predicate Steps(part: string) {
    part != "" && part != "." && part != ".."
  }

  lemma {:induction false} WalkedExactly(dir: seq<string>, parts: seq<string>)
    ensures Walk(dir, parts).Some? ==> |Walk(dir, parts).value| <= |dir| + |parts|
    ensures Walk(dir, parts) == Some(dir + parts) <==> forall i :: 0 <= i < |parts| ==> Steps(parts[i])
    ensures Walk(dir, parts).Some? && |Walk(dir, parts).value| == |dir| + |parts| ==>
              Walk(dir, parts) == Some(dir + parts)
    decreases parts
  {
    if parts == [] {
      assert dir + parts == dir;
    } else {
      var rest := parts[1..];
      assert parts == [parts[0]] + rest;
      assert (forall i :: 0 <= i < |parts| ==> Steps(parts[i]))
             <==> Steps(parts[0]) && forall i :: 0 <= i < |rest| ==> Steps(rest[i]);
      if Steps(parts[0]) {
        WalkedExactly(dir + [parts[0]], rest);
        assert dir + [parts[0]] + rest == dir + parts;
      } else if parts[0] != ".." {
        WalkedExactly(dir, rest);
      } else if dir != [] {
        WalkedExactly(dir[..|dir| - 1], rest);
      }
    }
  }

  function Lowered(s: string): string {
    seq(|s|, i requires 0 <= i < |s| => Lower(s[i]))
  }

  lemma GitPart(part: string)
    ensures SafePart(part) <==> Steps(part) && Lowered(part) != ".git"
  {
    if Lowered(part) == ".git" {
      assert |part| == |Lowered(part)| == 4;
      assert Lowered(part)[0] == '.' && Lowered(part)[1] == 'g' && Lowered(part)[2] == 'i' && Lowered(part)[3] == 't';
      assert part[0] == '.' by { assert Lower(part[0]) == '.'; }
    }
    if |part| == 4 && part[0] == '.' && Lower(part[1]) == 'g' && Lower(part[2]) == 'i' && Lower(part[3]) == 't' {
      assert Lowered(part) == ".git";
    }
  }

  lemma {:induction false} SplitEnds(s: string)
    ensures s != "" && s[0] == '/' ==> Split(s)[0] == ""
    ensures s != "" && s[|s| - 1] == '/' ==> Split(s)[|Split(s)| - 1] == ""
    decreases s
  {
    if |s| > 1 {
      SplitEnds(s[1..]);
    } else if |s| == 1 {
      assert s[1..] == "";
    }
  }

  /** A path is accepted exactly when it is short, holds no backslash and no null, is already in its walked form, so
      that it leads to itself and never above the root, and enters no git directory in any letter case. */
  lemma SafePathExactly(path: string)
    ensures SafePath(path)
            <==> && |path| <= 1000 && '\\' !in path && '\0' !in path
                 && Walk([], Split(path)) == Some(Split(path))
                 && forall i :: 0 <= i < |Split(path)| ==> Lowered(Split(path)[i]) != ".git"
  {
    var parts := Split(path);
    WalkedExactly([], parts);
    SplitEnds(path);
    assert [] + parts == parts;
    forall i | 0 <= i < |parts| ensures SafePart(parts[i]) <==> Steps(parts[i]) && Lowered(parts[i]) != ".git" {
      GitPart(parts[i]);
    }
    if path == "" {
      assert !Steps(parts[0]);
    }
    hide Walk, SafePart, Steps, Lowered;
  }

  // ----- The checkpoint.

  const MAX_CHECKPOINT_BYTES := 12 * 1024 * 1024

  lemma EncodedSize(b: Bytes)
    ensures 1 <= |Encode(b)| <= MAX_CHECKPOINT_BASE64 <==> 1 <= |b| <= MAX_CHECKPOINT_BYTES
  {
    EncodeLength(b);
  }

  lemma FileExactly(input: CandidateInput, path: string)
    requires path in input.tree && path in input.preimages && path in input.candidates
    ensures CheckpointFile(input, path).Valid()
            <==> && 1 <= |path| <= 1000 && 1 <= |input.tree[path]| <= MAX_CHECKPOINT_BYTES
                 && input.candidates[path] == Sha256(input.tree[path])
  {
    EncodedSize(input.tree[path]);
    DecodeEncode(input.tree[path]);
    CanonicalIsEncoded(Encode(input.tree[path]));
    hide Encode, Decode, Canonical;
  }

  /** The record of every file is one its validator accepts. */
  ghost predicate FilesValid(input: CandidateInput)
    requires input.tree.Keys == input.preimages.Keys && input.tree.Keys == input.candidates.Keys
  {
    forall path :: path in input.tree ==> CheckpointFile(input, path).Valid()
  }

  ghost predicate RecordsOf(input: CandidateInput, paths: seq<string>, files: seq<FileCheckpoint>)
    requires input.tree.Keys == input.preimages.Keys && input.tree.Keys == input.candidates.Keys
  {
    && |files| == |paths| && Within(paths, input.tree)
    && forall i :: 0 <= i < |paths| ==> files[i] == CheckpointFile(input, paths[i])
  }

  lemma RecordsValid(input: CandidateInput, paths: seq<string>, files: seq<FileCheckpoint>)
    requires input.tree.Keys == input.preimages.Keys && input.tree.Keys == input.candidates.Keys
    requires RecordsOf(input, paths, files) && forall p :: p in input.tree ==> p in paths
    ensures (forall i :: 0 <= i < |files| ==> files[i].Valid()) <==> FilesValid(input)
  {
    hide CheckpointFile, FileCheckpoint.Valid;
    if forall i :: 0 <= i < |files| ==> files[i].Valid() {
      forall path | path in input.tree ensures CheckpointFile(input, path).Valid() {
        assert path in paths;
        var i :| 0 <= i < |paths| && paths[i] == path;
        assert files[i].Valid();
      }
    }
  }

  lemma RecordsNamed(input: CandidateInput, paths: seq<string>, files: seq<FileCheckpoint>)
    requires input.tree.Keys == input.preimages.Keys && input.tree.Keys == input.candidates.Keys
    requires RecordsOf(input, paths, files)
    ensures forall i :: 0 <= i < |paths| ==> files[i].path == paths[i]
  {
    hide Encode;
  }

  lemma RecordsApart(paths: seq<string>, tree: map<string, Bytes>, files: seq<FileCheckpoint>)
    requires Lists(paths, tree) && |files| == |paths|
    requires forall i :: 0 <= i < |paths| ==> files[i].path == paths[i]
    ensures forall i, j :: 0 <= i < j < |files| ==> files[i].path != files[j].path
  {
    forall i, j | 0 <= i < j < |files| ensures files[i].path != files[j].path {
      assert paths[i] != paths[j];
    }
  }

  /** A checkpoint of one record per path is accepted exactly when the records and the origin are. */
  lemma ListedExactly(input: CandidateInput, paths: seq<string>, cp: Checkpoint)
    requires input.tree.Keys == input.preimages.Keys && input.tree.Keys == input.candidates.Keys
    requires |paths| == |input.tree| && Lists(paths, input.tree)
    requires cp.repositoryUrl == input.repositoryUrl && cp.baseSha == input.baseSha
    requires RecordsOf(input, paths, cp.files)
    ensures cp.Valid()
            <==> && 12 <= |input.repositoryUrl| <= 2000 && IsGitSha(input.baseSha)
                 && 1 <= |input.tree| <= 16 && FilesValid(input)
  {
    RecordsNamed(input, paths, cp.files);
    RecordsValid(input, paths, cp.files);
    RecordsApart(paths, input.tree, cp.files);
    assert |cp.files| == |input.tree|;
    hide RecordsOf, FilesValid, FileCheckpoint.Valid, IsGitSha, Within, Lists;
  }

  lemma BuiltExactly(input: CandidateInput)
    requires input.tree.Keys == input.preimages.Keys && input.tree.Keys == input.candidates.Keys
    ensures BuildCheckpoint(input).Valid()
            <==> && 12 <= |input.repositoryUrl| <= 2000 && IsGitSha(input.baseSha)
                 && 1 <= |input.tree| <= 16 && FilesValid(input)
  {
    hide CheckpointFile, FileCheckpoint.Valid, IsGitSha, Checkpoint.Valid, FilesValid;
    var paths := SortedNames(input.tree.Keys);
    SortedLists(input.tree);
    NamesCount(input.tree);
    var cp := BuildCheckpoint(input);
    assert RecordsOf(input, paths, cp.files);
    hide SortedNames, Lists, BuildCheckpoint, RecordsOf;
    ListedExactly(input, paths, cp);
  }

  /** A candidate can be checkpointed exactly when its maps name the same one to sixteen paths, every file has between
      one byte and twelve megabytes, which are the bytes it was verified with, and its origin is well formed. */
  lemma CheckpointExactly(input: CandidateInput)
    ensures FromVerifiedCandidate(input).Some?
            <==> && input.tree.Keys == input.preimages.Keys && input.tree.Keys == input.candidates.Keys
                 && 12 <= |input.repositoryUrl| <= 2000 && IsGitSha(input.baseSha)
                 && 1 <= |input.tree| <= 16
                 && forall path :: path in input.tree ==>
                      && 1 <= |path| <= 1000 && 1 <= |input.tree[path]| <= MAX_CHECKPOINT_BYTES
                      && input.candidates[path] == Sha256(input.tree[path])
  {
    hide CheckpointFile, BuildCheckpoint, IsGitSha, Checkpoint.Valid, FileCheckpoint.Valid;
    if input.tree.Keys == input.preimages.Keys && input.tree.Keys == input.candidates.Keys {
      BuiltExactly(input);
      forall path | path in input.tree
        ensures CheckpointFile(input, path).Valid()
                <==> && 1 <= |path| <= 1000 && 1 <= |input.tree[path]| <= MAX_CHECKPOINT_BYTES
                     && input.candidates[path] == Sha256(input.tree[path])
      {
        FileExactly(input, path);
      }
    }
  }

  lemma NamesCount<V>(m: map<string, V>)
    ensures |SortedNames(m.Keys)| == |m|
  {
    assert |m.Keys| == |m|;
  }

  // ----- The publisher's snapshot.

  predicate Within(names: seq<string>, tree: map<string, Bytes>) {
    forall i :: 0 <= i < |names| ==> names[i] in tree
  }

  /** The bytes of the named files, in any order. */
  function Size(tree: map<string, Bytes>, names: seq<string>): nat
    requires Within(names, tree)
  {
    if names == [] then 0 else Size(tree, names[..|names| - 1]) + |tree[names[|names| - 1]]|
  }

  ghost predicate Lists(names: seq<string>, m: map<string, Bytes>) {
    && Within(names, m) && (forall p :: p in m ==> p in names)
    && forall i, j :: 0 <= i < j < |names| ==> names[i] != names[j]
  }

  function Without(names: seq<string>, at: nat): seq<string>
    requires at < |names|
  {
    names[..at] + names[at + 1..]
  }

  lemma {:induction false} SizeWithout(tree: map<string, Bytes>, names: seq<string>, at: nat)
    requires at < |names| && Within(names, tree)
    ensures Within(Without(names, at), tree)
    ensures Size(tree, names) == Size(tree, Without(names, at)) + |tree[names[at]]|
  {
    var n := |names| - 1;
    if at == n {
      assert Without(names, at) == names[..n];
    } else {
      SizeWithout(tree, names[..n], at);
      assert Without(names[..n], at) == Without(names, at)[..n - 1];
      assert Without(names, at)[n - 1] == names[n];
    }
  }

  lemma MultisetWithout(names: seq<string>, at: nat)
    requires at < |names|
    ensures multiset(Without(names, at)) == multiset(names) - multiset{names[at]}
  {
    assert names == names[..at] + ([names[at]] + names[at + 1..]);
  }

  lemma {:induction false} SizeOrderFree(tree: map<string, Bytes>, a: seq<string>, b: seq<string>)
    requires Within(a, tree) && Within(b, tree) && multiset(a) == multiset(b)
    ensures Size(tree, a) == Size(tree, b)
    decreases |a|
  {
    if a == [] {
      assert |multiset(b)| == 0;
    } else {
      assert a[0] in multiset(b);
      var at :| 0 <= at < |b| && b[at] == a[0];
      SizeWithout(tree, a, 0);
      SizeWithout(tree, b, at);
      MultisetWithout(a, 0);
      MultisetWithout(b, at);
      SizeOrderFree(tree, Without(a, 0), Without(b, at));
    }
  }

  lemma ListingsAgree(a: seq<string>, b: seq<string>, m: map<string, Bytes>)
    requires Lists(a, m) && Lists(b, m)
    ensures multiset(a) == multiset(b)
  {
    OnceEach(a);
    OnceEach(b);
    forall p ensures multiset(a)[p] == multiset(b)[p] {
      assert p in multiset(a) <==> p in a;
      assert p in multiset(b) <==> p in b;
    }
  }

  lemma {:induction false} OnceEach(a: seq<string>)
    requires forall i, j :: 0 <= i < j < |a| ==> a[i] != a[j]
    ensures forall p :: multiset(a)[p] <= 1
  {
    if a != [] {
      var n := |a| - 1;
      OnceEach(a[..n]);
      assert a == a[..n] + [a[n]];
      assert a[n] !in a[..n];
      assert a[n] !in multiset(a[..n]);
    }
  }

  lemma {:induction false} TotalIsSize(tree: map<string, Bytes>, names: seq<string>, files: seq<SnapshotFile>)
    requires |files| == |names| && Within(names, tree)
    requires forall i :: 0 <= i < |names| ==> files[i].content == tree[names[i]]
    ensures TotalBytes(files) == Size(tree, names)
  {
    if names != [] {
      TotalIsSize(tree, names[..|names| - 1], files[..|files| - 1]);
    }
  }

  lemma {:induction false} NoneIsBigger(tree: map<string, Bytes>, names: seq<string>)
    requires Within(names, tree)
    ensures forall i :: 0 <= i < |names| ==> |tree[names[i]]| <= Size(tree, names)
  {
    if names != [] {
      var front := names[..|names| - 1];
      NoneIsBigger(tree, front);
      forall i | 0 <= i < |names| ensures |tree[names[i]]| <= Size(tree, names) {
        if i < |front| { assert names[i] == front[i]; }
      }
    }
  }

  lemma SortedLists(tree: map<string, Bytes>)
    ensures Lists(SortedNames(tree.Keys), tree)
  {
    SortedNamesIncrease(tree.Keys);
    var names := SortedNames(tree.Keys);
    forall i | 0 <= i < |names| ensures names[i] in tree {
      assert names[i] in tree.Keys;
    }
  }

  lemma SnapshotContents(input: CandidateInput)
    requires input.tree.Keys == input.candidates.Keys && input.tree.Keys == input.preimages.Keys
    ensures var paths := SortedNames(input.tree.Keys);
            && |SnapshotFiles(input)| == |paths| && Within(paths, input.tree)
            && forall i :: 0 <= i < |paths| ==> SnapshotFiles(input)[i].content == input.tree[paths[i]]
  {
    SortedLists(input.tree);
    hide SortedNames;
  }

  lemma SnapshotSize(input: CandidateInput, names: seq<string>)
    requires input.tree.Keys == input.candidates.Keys && input.tree.Keys == input.preimages.Keys
    requires Lists(names, input.tree)
    ensures TotalBytes(SnapshotFiles(input)) == Size(input.tree, names)
  {
    var paths := SortedNames(input.tree.Keys);
    SortedLists(input.tree);
    ListingsAgree(paths, names, input.tree);
    SizeOrderFree(input.tree, paths, names);
    SnapshotContents(input);
    hide SortedNames, SnapshotFiles, Size, TotalBytes;
    TotalIsSize(input.tree, paths, SnapshotFiles(input));
  }

  /** In whatever order its files are listed, the publisher accepts a candidate exactly when its origin is well formed,
      its maps name the same files, at least one, at safe paths, with the bytes that were verified, and all of them
      together fit the limit; the limit on one file never decides. */
  lemma SnapshotExactly(input: CandidateInput, names: seq<string>)
    requires Lists(names, input.tree)
    ensures TakeSnapshot(input).Some?
            <==> && IsGitSha(input.baseSha)
                 && StartsWith(input.repositoryUrl, "https://") && EndsWith(input.repositoryUrl, ".git")
                 && names != []
                 && input.tree.Keys == input.candidates.Keys && input.tree.Keys == input.preimages.Keys
                 && (forall p :: p in names ==> SafePath(p) && input.candidates[p] == Sha256(input.tree[p]))
                 && Size(input.tree, names) <= MAX_CANDIDATE_BLOB_BYTES
  {
    hide SafePath, IsGitSha, StartsWith, EndsWith, Size, TotalBytes, SnapshotFiles;
    if names == [] {
      assert input.tree == map[];
    } else {
      assert names[0] in input.tree;
      if input.tree.Keys == input.candidates.Keys && input.tree.Keys == input.preimages.Keys {
        SnapshotSize(input, names);
        if Size(input.tree, names) <= MAX_CANDIDATE_BLOB_BYTES {
          SizesFit(input.tree, names);
        }
      }
    }
  }

  lemma SizesFit(tree: map<string, Bytes>, names: seq<string>)
    requires Lists(names, tree) && Size(tree, names) <= MAX_CANDIDATE_BLOB_BYTES
    ensures forall p :: p in tree ==> |tree[p]| <= MAX_CANDIDATE_BLOB_BYTES
  {
    hide Size;
    NoneIsBigger(tree, names);
    forall p | p in tree ensures |tree[p]| <= MAX_CANDIDATE_BLOB_BYTES {
      assert p in names;
      var i :| 0 <= i < |names| && names[i] == p;
    }
  }
}
