/**
 * The on-disk backup store (src/kiroku/recorder/git_store.py): a working tree of device
 * configurations, the git index and the tree of HEAD.
 */
module GitStore {
  import opened Basics

  type Path = string
  /** Commits are numbered in the order they are made; the number stands for the sha. */
  type Sha = nat

  /** SHA-256, taken to be collision-free: equal digests mean equal texts. */
  datatype Digest = Sha256(text: string)

  datatype Repo = Repo(tree: map<Path, string>, index: map<Path, string>, head: map<Path, string>, commits: nat)

  /** `Path.read_text` with universal newlines: "\r\n" and a lone "\r" are read as "\n". */
  function ReadText(s: string): (r: string)
    ensures '\r' !in r
    ensures |r| <= |s|
    ensures '\r' !in s ==> r == s
  {
    if s == "" then ""
    else if s[0] == '\r' then
      "\n" + ReadText(if |s| > 1 && s[1] == '\n' then s[2..] else s[1..])
    else [s[0]] + ReadText(s[1..])
  }

  /** The letters and digits outside ASCII, whichever they are. */
  const BEYOND_ASCII: set<char>

  predicate IsAlnum(c: char) {
    '0' <= c <= '9' || 'a' <= c <= 'z' || 'A' <= c <= 'Z' || ('\U{80}' <= c && c in BEYOND_ASCII)
  }

  predicate IsSlugChar(c: char) {
    IsAlnum(c) || c == '-' || c == '_' || c == '.'
  }

  function Slugify(value: string): (r: string)
    ensures |r| == |value|
    ensures forall i :: 0 <= i < |r| ==> IsSlugChar(r[i])
    ensures forall i :: 0 <= i < |r| ==> r[i] == value[i] || (r[i] == '_' && !IsSlugChar(value[i]))
    ensures (forall i :: 0 <= i < |value| ==> IsSlugChar(value[i])) ==> r == value
  {
    seq(|value|, i requires 0 <= i < |value| => if IsSlugChar(value[i]) then value[i] else '_')
  }

  lemma UpperCase(c: char)
    ensures c in "ABCDEFGHIJKLMNOPQRSTUVWXYZ" <==> 'A' <= c <= 'Z'
  {
    if 'A' <= c <= 'Z' {
      assert "ABCDEFGHIJKLMNOPQRSTUVWXYZ"[c as int - 'A' as int] == c;
    }
  }

  lemma LowerCase(c: char)
    ensures c in "abcdefghijklmnopqrstuvwxyz" <==> 'a' <= c <= 'z'
  {
    if 'a' <= c <= 'z' {
      assert "abcdefghijklmnopqrstuvwxyz"[c as int - 'a' as int] == c;
    }
  }

  lemma DigitsAndMarks(c: char)
    ensures c in "0123456789-_." <==> '0' <= c <= '9' || c == '-' || c == '_' || c == '.'
  {
    var others := "0123456789-_.";
    if '0' <= c <= '9' {
      assert others[c as int - '0' as int] == c;
    }
    assert others[10] == '-' && others[11] == '_' && others[12] == '.';
  }

  /** Within ASCII exactly the letters, the digits and three marks are kept. */
  lemma SlugCharacters(c: char)
    requires c < '\U{80}'
    ensures IsSlugChar(c) <==>
      c in "ABCDEFGHIJKLMNOPQRSTUVWXYZ" || c in "abcdefghijklmnopqrstuvwxyz" || c in "0123456789-_."
  {
    UpperCase(c);
    LowerCase(c);
    DigitsAndMarks(c);
  }

  /** `<group>/<device>.cfg`; an empty directory or "." disappears from a joined path. */
  function FilePath(group: string, device: string): Path {
    var dir := Slugify(group);
    var file := Slugify(device) + ".cfg";
    if dir == "" || dir == "." then file else dir + "/" + file
  }

  predicate IsNamed(group: string) {
    Slugify(group) != "" && Slugify(group) != "."
  }

  /** Two properly named groups share a path for two devices exactly when both slugs agree. */
  lemma FilePathInjective(g: string, d: string, g': string, d': string)
    requires IsNamed(g) && IsNamed(g')
    ensures FilePath(g, d) == FilePath(g', d') <==> Slugify(g) == Slugify(g') && Slugify(d) == Slugify(d')
  {
    Joined(Slugify(g), Slugify(d) + ".cfg", Slugify(g'), Slugify(d') + ".cfg");
    if Slugify(d) + ".cfg" == Slugify(d') + ".cfg" {
      var file, file' := Slugify(d) + ".cfg", Slugify(d') + ".cfg";
      assert Slugify(d) == file[..|file| - 4] && Slugify(d') == file'[..|file'| - 4];
    }
  }

  /** A joined path splits in one way when neither directory name holds a slash. */
  lemma Joined(dir: string, file: string, dir': string, file': string)
    requires '/' !in dir && '/' !in dir'
    ensures dir + "/" + file == dir' + "/" + file' <==> dir == dir' && file == file'
  {
    var p, p' := dir + "/" + file, dir' + "/" + file';
    assert p[|dir|] == '/' && p'[|dir'|] == '/';
    assert forall i :: 0 <= i < |dir| ==> p[i] == dir[i];
    assert forall i :: 0 <= i < |dir'| ==> p'[i] == dir'[i];
    if p == p' {
      assert |dir| == |dir'|;
      assert dir == p[..|dir|] && dir' == p'[..|dir'|];
      assert file == p[|dir| + 1..] && file' == p'[|dir'| + 1..];
    }
  }

  // ----- stage and commit_batch as functions on the repository -----

  /** Whether `stage` finds the file missing or its digest different. */
  predicate Differs(repo: Repo, path: Path, content: string) {
    path !in repo.tree || Sha256(ReadText(repo.tree[path])) != Sha256(content)
  }

  function Stage(repo: Repo, path: Path, content: string): Repo {
    if Differs(repo, path, content) then repo.(tree := repo.tree[path := content]) else repo
  }

  /** `index.add(paths)`. A path missing from the tree would raise; the invariants exclude it. */
  function Add(repo: Repo, paths: set<Path>): Repo {
    repo.(index := map p | p in repo.index.Keys + (paths * repo.tree.Keys) ::
                     if p in paths && p in repo.tree then repo.tree[p] else repo.index[p])
  }

  /** `index.commit(...)`: HEAD becomes the index. */
  function Record(repo: Repo): Repo {
    repo.(head := repo.index, commits := repo.commits + 1)
  }

  function Commit(repo: Repo, paths: seq<Path>): (Repo, Option<Sha>) {
    if paths == [] then (repo, None)
    else
      var added := Add(repo, Elements(paths));
      if added.index == added.head then (added, None) else (Record(added), Some(repo.commits))
  }

  /** `write`: stage, and commit the one file at once when it changed. */
  function Write(repo: Repo, path: Path, content: string): (Repo, Option<Sha>) {
    if !Differs(repo, path, content) then (repo, None)
    else (Record(Add(Stage(repo, path, content), {path})), Some(repo.commits))
  }

  // ----- what the two-phase write promises -----

  /** The index entry of a path once the listed files are added. */
  ghost function Entry(repo: Repo, paths: seq<Path>, p: Path): Option<string> {
    if p in paths then Get(repo.tree, p) else Get(repo.index, p)
  }

  /** A commit is made exactly when some path is listed and the index with the listed files differs from HEAD; it takes
      a number no commit had before, and its tree is that index. */
  lemma CommitSha(repo: Repo, paths: seq<Path>)
    requires forall p | p in paths :: p in repo.tree
    ensures var (repo', sha) := Commit(repo, paths);
      && (sha.Some? <==> paths != [] && exists p :: Entry(repo, paths, p) != Get(repo.head, p))
      && (sha.Some? ==>
            && sha == Some(repo.commits) && repo'.commits == repo.commits + 1
            && forall p :: Get(repo'.head, p) == Entry(repo, paths, p))
      && (sha.None? ==> repo'.head == repo.head && repo'.commits == repo.commits)
  {
    if paths != [] {
      var added := Add(repo, Elements(paths));
      forall p ensures Get(added.index, p) == Entry(repo, paths, p) {}
      if added.index != added.head {
        Differ(added.index, added.head);
      }
    }
  }

  lemma Differ(a: map<Path, string>, b: map<Path, string>)
    requires a != b
    ensures exists p :: Get(a, p) != Get(b, p)
  {
    if forall p :: Get(a, p) == Get(b, p) {
      forall p ensures p in a <==> p in b {
        assert Get(a, p) == Get(b, p);
      }
      forall p | p in a ensures a[p] == b[p] {
        assert Get(a, p) == Get(b, p);
      }
      SameMap(a, b);
    }
  }

  /** Paths whose working-tree text is not what HEAD records. */
  function Dirty(repo: Repo): set<Path> {
    set p | p in repo.tree.Keys + repo.head.Keys && Get(repo.tree, p) != Get(repo.head, p)
  }

  /** Outside `loose` the index is HEAD: nothing is half-added. */
  ghost predicate IndexClean(repo: Repo, loose: set<Path>) {
    forall p :: p !in loose ==> Get(repo.index, p) == Get(repo.head, p)
  }

  /** Staging dirties at most the staged path, and only when it reports a change. */
  lemma StageDirties(repo: Repo, path: Path, content: string)
    ensures Dirty(Stage(repo, path, content)) <= Dirty(repo) + (if Differs(repo, path, content) then {path} else {})
  {
    var repo' := Stage(repo, path, content);
    forall p | p in Dirty(repo') && p != path ensures p in Dirty(repo) {
      assert Get(repo'.tree, p) == Get(repo.tree, p);
    }
  }

  /** A commit puts its own paths into HEAD and dirties none, whatever else lies dirty or half-added. */
  lemma CommitCleans(repo: Repo, paths: seq<Path>, loose: set<Path>)
    requires IndexClean(repo, loose)
    requires forall p | p in paths :: p in repo.tree
    ensures var (repo', sha) := Commit(repo, paths);
      && repo'.tree == repo.tree
      && IndexClean(repo', loose)
      && Dirty(repo') <= (Dirty(repo) - Elements(paths)) + loose
      && (forall p | p in paths :: p in repo'.head && repo'.head[p] == repo.tree[p])
  {
    var (repo', sha) := Commit(repo, paths);
    if paths != [] {
      var added := Add(repo, Elements(paths));
      forall p ensures Get(added.index, p) == if p in paths then Get(repo.tree, p) else Get(repo.index, p) {}
      assert forall p :: Get(repo'.head, p) == Get(added.index, p);
    }
  }

  /** The round trip of `stage`: afterwards a reader of the file sees `content` up to newline translation,
      and the file holds exactly `content` unless the write was skipped over a file with carriage returns. */
  lemma StageStores(repo: Repo, path: Path, content: string)
    ensures var repo' := Stage(repo, path, content);
      && path in repo'.tree
      && ReadText(repo'.tree[path]) == ReadText(content)
      && (repo'.tree[path] == content <==> Differs(repo, path, content) || '\r' !in repo.tree[path])
  {
    if !Differs(repo, path, content) && '\r' in repo.tree[path] {
      assert '\r' !in content;
    }
  }

  /** Staging the same text again is a no-op exactly when the text holds no carriage return:
      the comparison reads the file with newline translation but hashes the new text raw. */
  lemma RestageUnchanged(repo: Repo, path: Path, content: string)
    ensures !Differs(Stage(repo, path, content), path, content) <==> '\r' !in content
  {
    StageStores(repo, path, content);
  }

  /** The object the recorder holds. */
  class Store {
    var repo: Repo

    constructor (repo: Repo)
      ensures this.repo == repo
    {
      this.repo := repo;
    }

    /** Writes the file only; the index is not touched. */
    method StageFile(group: string, device: string, content: string) returns (changed: bool, digest: Digest)
      modifies this
      ensures digest == Sha256(content)
      ensures changed == Differs(old(repo), FilePath(group, device), content)
      ensures repo == Stage(old(repo), FilePath(group, device), content)
    {
      digest := Sha256(content);
      var rel := FilePath(group, device);
      if rel in repo.tree {
        var existing := ReadText(repo.tree[rel]);
        if Sha256(existing) == digest {
          return false, digest;
        }
      }
      repo := repo.(tree := repo.tree[rel := content]);
      changed := true;
    }

    /** Adds every listed path to the index and commits when the index then differs from HEAD. */
    method CommitBatch(paths: seq<Path>) returns (sha: Option<Sha>)
      modifies this
      ensures repo == Commit(old(repo), paths).0
      ensures sha == Commit(old(repo), paths).1
    {
      if paths == [] {
        return None;
      }
      repo := Add(repo, Elements(paths));
      if repo.index == repo.head {
        return None;
      }
      sha := Some(repo.commits);
      repo := Record(repo);
    }

    method WriteFile(group: string, device: string, content: string) returns (sha: Option<Sha>, digest: Digest)
      modifies this
      ensures digest == Sha256(content)
      ensures repo == Write(old(repo), FilePath(group, device), content).0
      ensures sha == Write(old(repo), FilePath(group, device), content).1
    {
      var changed;
      changed, digest := StageFile(group, device, content);
      if !changed {
        return None, digest;
      }
      repo := Add(repo, {FilePath(group, device)});
      sha := Some(repo.commits);
      repo := Record(repo);
    }
  }
}
