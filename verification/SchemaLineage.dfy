/** The migration lineage: one head is accepted exactly when all revisions form a single chain. */
module SchemaLineage {
  import opened Prelude

  // ---------------------------------------------------------------- reading the revision files

  datatype Field = Revision | DownRevision
  datatype Literal = Text(text: string) | Nothing | OtherLiteral

  /** The top-level assignments of one file to the two field names, in source order. */
  type File = seq<(Field, Literal)>
  type Parents = map<string, Option<string>>

  predicate NameChar(c: char) {
    'A' <= c <= 'Z' || 'a' <= c <= 'z' || '0' <= c <= '9' || c == '_'
  }

  predicate RevisionName(s: string) {
    1 <= |s| <= 64 && forall c | c in s :: NameChar(c)
  }

  function ValueOf(file: File, field: Field): Option<Literal> {
    if file == [] then None
    else if file[|file| - 1].0 == field then Some(file[|file| - 1].1)
    else ValueOf(file[..|file| - 1], field)
  }

  predicate AssignsOnce(file: File) {
    forall i, j | 0 <= i < j < |file| :: file[i].0 != file[j].0
  }

  /** Revision and parent of one well-formed file. */
  function Entry(file: File): Option<(string, Option<string>)> {
    if !AssignsOnce(file) then None
    else
      match (ValueOf(file, Revision), ValueOf(file, DownRevision))
      case (Some(Text(revision)), Some(Text(parent))) => if RevisionName(revision) then Some((revision, Some(parent))) else None
      case (Some(Text(revision)), Some(Nothing)) => if RevisionName(revision) then Some((revision, None)) else None
      case _ => None
  }

  /** The parent of every revision; None when a file is malformed or a revision repeats. */
  function ParentsOf(files: seq<File>): Option<Parents> {
    if files == [] then Some(map[])
    else
      var n := |files| - 1;
      match (ParentsOf(files[..n]), Entry(files[n]))
      case (Some(before), Some(entry)) => if entry.0 in before then None else Some(before[entry.0 := entry.1])
      case _ => None
  }

  // ---------------------------------------------------------------- what a lineage is

  /** Oldest first: a root, then each revision on top of the one before, and nothing else. */
  ghost predicate Lineage(parents: Parents, chain: seq<string>) {
    && chain != []
    && (forall i, j | 0 <= i < j < |chain| :: chain[i] != chain[j])
    && (forall k :: k in parents <==> k in chain)
    && parents[chain[0]] == None
    && (forall i | 0 < i < |chain| :: parents[chain[i]] == Some(chain[i - 1]))
  }

  function Roots(parents: Parents): set<string> {
    set k | k in parents && parents[k].None?
  }

  predicate Closed(parents: Parents) {
    forall k | k in parents :: parents[k].Some? ==> parents[k].value in parents
  }

  /** Revisions that are some revision's parent. */
  function Used(parents: Parents): set<string> {
    set k | k in parents && parents[k].Some? :: parents[k].value
  }

  function Heads(parents: Parents): set<string> {
    parents.Keys - Used(parents)
  }

  predicate Plausible(parents: Parents) {
    parents != map[] && |Roots(parents)| == 1 && Closed(parents) && |Heads(parents)| == 1
  }

  // ---------------------------------------------------------------- pigeonhole

  function ImageOf(parents: Parents, ks: set<string>): set<string>
    requires forall k | k in ks :: k in parents && parents[k].Some?
  {
    set k | k in ks :: parents[k].value
  }

  lemma {:induction false} ImageNoLarger(parents: Parents, ks: set<string>)
    requires forall k | k in ks :: k in parents && parents[k].Some?
    ensures |ImageOf(parents, ks)| <= |ks|
    decreases |ks|
  {
    if ks != {} {
      var k :| k in ks;
      ImageNoLarger(parents, ks - {k});
      assert ImageOf(parents, ks) == ImageOf(parents, ks - {k}) + {parents[k].value};
    }
  }

  /** One root and one head leave no room for a branch: two revisions never share a parent. */
  lemma NoBranches(parents: Parents, a: string, b: string)
    requires Plausible(parents)
    requires a in parents && b in parents && parents[a].Some? && parents[a] == parents[b]
    ensures a == b
  {
    if a != b {
      var inner := parents.Keys - Roots(parents);
      var rest := inner - {a};
      assert |inner| == |parents.Keys| - 1;
      assert Used(parents) <= parents.Keys;
      assert |Used(parents)| == |parents.Keys| - 1;
      forall v | v in Used(parents)
        ensures v in ImageOf(parents, rest)
      {
        var k :| k in parents && parents[k].Some? && parents[k].value == v;
        assert k in inner;
        if k == a {
          assert b in rest;
        } else {
          assert k in rest;
        }
      }
      assert Used(parents) <= ImageOf(parents, rest);
      SubsetNoLarger(Used(parents), ImageOf(parents, rest));
      ImageNoLarger(parents, rest);
      assert false;
    }
  }

  lemma {:induction false} SubsetNoLarger<T>(a: set<T>, b: set<T>)
    requires a <= b
    ensures |a| <= |b|
    decreases |a|
  {
    if a != {} {
      var x :| x in a;
      SubsetNoLarger(a - {x}, b - {x});
    }
  }

  // ---------------------------------------------------------------- walking from the head

  /** `path`: newest first, from the head down to just above `current`. */
  ghost predicate WalkedDown(parents: Parents, head: string, path: seq<string>, current: Option<string>) {
    && (forall i, j | 0 <= i < j < |path| :: path[i] != path[j])
    && (forall k | k in path :: k in parents)
    && (if path == [] then current == Some(head) else path[0] == head && parents[path[|path| - 1]] == current)
    && (forall i | 0 < i < |path| :: parents[path[i - 1]] == Some(path[i]))
  }

  function Reversed(s: seq<string>): (r: seq<string>)
    ensures |r| == |s| && forall i | 0 <= i < |s| :: r[i] == s[|s| - 1 - i]
  {
    if s == [] then [] else Reversed(s[1..]) + [s[0]]
  }

  /** A walk that reached the root and saw every revision is the lineage, read backwards. */
  lemma WalkIsLineage(parents: Parents, head: string, path: seq<string>)
    requires WalkedDown(parents, head, path, None) && path != []
    requires forall k | k in parents :: k in path
    ensures Lineage(parents, Reversed(path)) && Reversed(path)[|path| - 1] == head
  {
    var chain := Reversed(path);
    forall k
      ensures k in parents <==> k in chain
    {
      if k in chain {
        var i :| 0 <= i < |chain| && chain[i] == k;
        assert path[|path| - 1 - i] in path;
      }
      if k in path {
        var i :| 0 <= i < |path| && path[i] == k;
        assert chain[|path| - 1 - i] == k;
      }
    }
    forall i | 0 < i < |chain|
      ensures parents[chain[i]] == Some(chain[i - 1])
    {
      assert parents[path[(|path| - i) - 1]] == Some(path[|path| - i]);
    }
  }

  /** The head is in no other revision's past, so a walk from it never meets a revision twice. */
  lemma NeverSeenTwice(parents: Parents, head: string, path: seq<string>, current: string)
    requires Plausible(parents) && head in Heads(parents)
    requires WalkedDown(parents, head, path, Some(current))
    ensures current !in path
  {
    if current in path {
      var i :| 0 <= i < |path| && path[i] == current;
      var last := path[|path| - 1];
      assert last in path;
      if i != 0 {
        assert path[i - 1] in path;
        NoBranches(parents, path[i - 1], last);
      }
      assert false;
    }
  }

  /** On a lineage every check passes, and the walk is the lineage itself. */
  lemma LineagePlausible(parents: Parents, chain: seq<string>)
    requires Lineage(parents, chain)
    ensures Plausible(parents) && Heads(parents) == {chain[|chain| - 1]}
  {
    var n := |chain|;
    forall k | k in parents
      ensures parents[k].Some? ==> parents[k].value in parents && parents[k].value != chain[n - 1]
      ensures parents[k].None? ==> k == chain[0]
    {
      var i :| 0 <= i < n && chain[i] == k;
      if i > 0 {
        assert chain[i - 1] in chain;
      }
    }
    assert chain[0] in chain && chain[n - 1] in chain;
    assert Roots(parents) == {chain[0]};
    forall k | k in parents && k != chain[n - 1]
      ensures k in Used(parents)
    {
      var i :| 0 <= i < n && chain[i] == k;
      assert chain[i + 1] in chain && parents[chain[i + 1]] == Some(k);
    }
    assert Heads(parents) == {chain[n - 1]};
  }

  lemma {:induction false} WalkFollowsLineage(parents: Parents, chain: seq<string>, path: seq<string>, current: Option<string>, i: nat)
    requires Lineage(parents, chain) && WalkedDown(parents, chain[|chain| - 1], path, current) && i < |path|
    ensures |path| <= |chain| && path[i] == chain[|chain| - 1 - i]
  {
    DistinctWithin(path, chain);
    if i > 0 {
      WalkFollowsLineage(parents, chain, path, current, i - 1);
      assert parents[path[i - 1]] == Some(path[i]);
    }
  }

  lemma OnlyOldestIsRoot(parents: Parents, chain: seq<string>, j: nat)
    requires Lineage(parents, chain) && j < |chain|
    ensures chain[j] in parents && (parents[chain[j]].None? <==> j == 0)
  {
    assert chain[j] in chain;
    if j > 0 {
      assert parents[chain[j]] == Some(chain[j - 1]);
    }
  }

  /** A walk that reached the root of a lineage has seen all of it. */
  lemma WalkSeesAll(parents: Parents, chain: seq<string>, path: seq<string>, k: string)
    requires Lineage(parents, chain) && WalkedDown(parents, chain[|chain| - 1], path, None) && path != []
    requires k in parents
    ensures k in path
  {
    var last := |path| - 1;
    WalkFollowsLineage(parents, chain, path, None, last);
    OnlyOldestIsRoot(parents, chain, |chain| - 1 - last);
    var i :| 0 <= i < |chain| && chain[i] == k;
    WalkFollowsLineage(parents, chain, path, None, |chain| - 1 - i);
  }

  /** The newest revision of a lineage is the same for every way of writing it. */
  lemma HeadUnique(parents: Parents, a: seq<string>, b: seq<string>)
    requires Lineage(parents, a) && Lineage(parents, b)
    ensures a[|a| - 1] == b[|b| - 1]
  {
    LineagePlausible(parents, a);
    LineagePlausible(parents, b);
    assert a[|a| - 1] in {b[|b| - 1]};
  }

  // ---------------------------------------------------------------- the resolver

  lemma {:induction false} BadFilePersists(files: seq<File>, n: nat)
    requires n <= |files| && ParentsOf(files[..n]).None?
    ensures ParentsOf(files).None?
    decreases |files| - n
  {
    if n == |files| {
      assert files[..n] == files;
    } else {
      assert files[..n + 1][..n] == files[..n];
      BadFilePersists(files, n + 1);
    }
  }

  /** The two fields of one file, each assigned exactly once. */
  method ReadFields(file: File) returns (r: Option<(Literal, Literal)>)
    ensures r.Some? <==> AssignsOnce(file) && ValueOf(file, Revision).Some? && ValueOf(file, DownRevision).Some?
    ensures r.Some? ==> r.value == (ValueOf(file, Revision).value, ValueOf(file, DownRevision).value)
  {
    var fields: map<Field, Literal> := map[];
    assert file[..0] == [];
    for i := 0 to |file|
      invariant forall f :: f in fields <==> exists k | 0 <= k < i :: file[k].0 == f
      invariant forall f :: ValueOf(file[..i], f) == if f in fields then Some(fields[f]) else None
      invariant forall j, k | 0 <= j < k < i :: file[j].0 != file[k].0
    {
      var (target, value) := file[i];
      assert file[..i + 1][..i] == file[..i];
      if target in fields {
        return None;
      }
      fields := fields[target := value];
    }
    assert file[..|file|] == file;
    if Revision !in fields || DownRevision !in fields {
      return None;
    }
    r := Some((fields[Revision], fields[DownRevision]));
  }

  method ReadParents(files: seq<File>) returns (r: Option<Parents>)
    ensures r == ParentsOf(files)
  {
    var parents: Parents := map[];
    assert files[..0] == [];
    for i := 0 to |files|
      invariant ParentsOf(files[..i]) == Some(parents)
    {
      assert files[..i + 1][..i] == files[..i];
      var fields := ReadFields(files[i]);
      if fields.None? {
        BadFilePersists(files, i + 1);
        return None;
      }
      var (revision, parent) := fields.value;
      if !revision.Text? || !RevisionName(revision.text) || revision.text in parents || parent.OtherLiteral? {
        BadFilePersists(files, i + 1);
        return None;
      }
      parents := parents[revision.text := if parent.Text? then Some(parent.text) else None];
    }
    assert files[..|files|] == files;
    r := Some(parents);
  }

  /** Walk from the head to the root, remembering what was seen. */
  method Walk(parents: Parents, head: string) returns (seen: set<string>, ghost path: seq<string>)
    requires Plausible(parents) && head in Heads(parents)
    ensures WalkedDown(parents, head, path, None) && path != []
    ensures forall k :: k in seen <==> k in path
  {
    seen := {};
    path := [];
    var current := Some(head);
    while current.Some?
      invariant WalkedDown(parents, head, path, current)
      invariant current.Some? ==> current.value in parents
      invariant current.None? ==> path != []
      invariant forall k :: k in seen <==> k in path
      decreases parents.Keys - seen
    {
      NeverSeenTwice(parents, head, path, current.value);
      hide Plausible, Heads;
      seen := seen + {current.value};
      path := path + [current.value];
      current := parents[current.value];
      assert Closed(parents) by { PlausibleClosed(parents); }
    }
  }

  lemma PlausibleClosed(parents: Parents)
    requires Plausible(parents)
    ensures Closed(parents)
  {
  }

  /** `resolve_revision`: accepts exactly the single linear chains and returns the newest revision. */
  method ResolveRevision(files: seq<File>) returns (r: Option<string>)
    ensures r.Some? <==> ParentsOf(files).Some? && exists chain :: Lineage(ParentsOf(files).value, chain)
    ensures r.Some? ==> exists chain :: Lineage(ParentsOf(files).value, chain) && chain[|chain| - 1] == r.value
  {
    var read := ReadParents(files);
    if read.None? {
      return None;
    }
    var parents := read.value;
    if !Plausible(parents) {
      forall chain
        ensures !Lineage(parents, chain)
      {
        if Lineage(parents, chain) {
          LineagePlausible(parents, chain);
        }
      }
      return None;
    }
    var head :| head in Heads(parents);
    ghost var path;
    var seen;
    seen, path := Walk(parents, head);
    if seen != parents.Keys {
      forall chain
        ensures !Lineage(parents, chain)
      {
        if Lineage(parents, chain) {
          NotAllSeen(parents, head, path, chain, seen);
        }
      }
      return None;
    }
    WalkIsLineage(parents, head, path);
    r := Some(head);
  }

  lemma NotAllSeen(parents: Parents, head: string, path: seq<string>, chain: seq<string>, seen: set<string>)
    requires Lineage(parents, chain) && head in Heads(parents)
    requires WalkedDown(parents, head, path, None) && path != []
    requires forall k :: k in seen <==> k in path
    ensures seen == parents.Keys
  {
    LineagePlausible(parents, chain);
    assert head == chain[|chain| - 1];
    forall k | k in parents
      ensures k in seen
    {
      WalkSeesAll(parents, chain, path, k);
    }
  }
}
