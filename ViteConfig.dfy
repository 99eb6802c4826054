/** The bundler's `manualChunks(id)` hook (vite.config.js): modules under
    `node_modules` are grouped into one chunk per package directory. */
module ViteConfig {
  import opened JsValues
  import opened JsStrings

  /** What the hook does for a module id: no chunk name (`undefined`, the bundler
      decides), a chunk name, or a thrown TypeError that fails the build. */
  datatype ChunkName = NoChunk | Chunk(name: string) | BuildError

  const NodeModules := "node_modules"
  const NodeModulesDir := "node_modules/"

  /** `manualChunks(id)`: outside `node_modules` no name; inside, the first
      '/'-separated piece of the second `'node_modules/'` piece; indexing a split
      result with one piece gives `undefined`, whose `split` throws. */
  function ManualChunks(id: string): ChunkName
  {
    if !Contains(id, NodeModules) then NoChunk
    else
      var parts := Split(id, NodeModulesDir);
      if |parts| < 2 then BuildError
      else Chunk(Split(parts[1], "/")[0])
  }

  /** An occurrence of a longer pattern is an occurrence of its prefix. */
  lemma OccursAtPrefix(s: string, p: string, q: string, i: nat)
    requires OccursAt(s, p + q, i)
    ensures OccursAt(s, p, i)
  {
    assert s[i..i + |p|] == s[i..i + |p + q|][..|p|];
  }

  /** The three outcomes: no name exactly when the id does not mention
      `node_modules`, a build error exactly when it mentions `node_modules` but never
      `node_modules/`, and a name exactly when it contains `node_modules/`. */
  lemma ManualChunksCases(id: string)
    ensures ManualChunks(id) == NoChunk <==> !Contains(id, NodeModules)
    ensures ManualChunks(id) == BuildError <==> Contains(id, NodeModules) && !Contains(id, NodeModulesDir)
    ensures ManualChunks(id).Chunk? <==> Contains(id, NodeModulesDir)
  {
    SplitHead(id, NodeModulesDir);
    if Contains(id, NodeModulesDir) {
      var i := IndexOf(id, NodeModulesDir).value;
      assert NodeModulesDir == NodeModules + "/";
      OccursAtPrefix(id, NodeModules, "/", i);
      ContainsIffOccurs(id, NodeModules);
    }
  }

  /** A chunk name never contains '/', and it is a prefix of the text after the first
      `node_modules/`. */
  lemma {:induction false} ChunkNameShape(id: string)
    requires ManualChunks(id).Chunk?
    ensures '/' !in ManualChunks(id).name
    ensures Contains(id, NodeModulesDir)
    ensures var rest := AfterFirst(id, NodeModulesDir);
            var name := ManualChunks(id).name;
            |name| <= |rest| && rest[..|name|] == name
  {
    ManualChunksCases(id);
    SplitHead(id, NodeModulesDir);
    SplitLeadingPieces(id, NodeModulesDir);
    var rest := AfterFirst(id, NodeModulesDir);
    var piece := Split(id, NodeModulesDir)[1];
    assert piece == FirstPiece(rest, NodeModulesDir);
    var name := ManualChunks(id).name;
    SplitPiecesFree(piece, "/");
    SplitHead(piece, "/");
    assert name == Split(piece, "/")[0];
    if '/' in name {
      var k :| 0 <= k < |name| && name[k] == '/';
      OccursAtChar(name, '/', k);
      assert false;
    }
  }

  /** The chunk name is the text after the first `node_modules/` up to the next '/',
      unless that text itself ends in `node_modules`: `split` then cuts the second
      piece at that nested `node_modules/` rather than at the '/'. */
  lemma ChunkNameIsFirstSegment(id: string)
    requires Contains(id, NodeModulesDir)
    requires !EndsWith(FirstPiece(AfterFirst(id, NodeModulesDir), "/"), NodeModules)
    ensures ManualChunks(id) == Chunk(FirstPiece(AfterFirst(id, NodeModulesDir), "/"))
  {
    ManualChunksCases(id);
    SplitHead(id, NodeModulesDir);
    SplitLeadingPieces(id, NodeModulesDir);
    var rest := AfterFirst(id, NodeModulesDir);
    var piece := Split(id, NodeModulesDir)[1];
    assert piece == FirstPiece(rest, NodeModulesDir);
    SplitHead(piece, "/");
    SegmentBeforeNestedDir(rest);
  }

  /** The directory name holds no '/', and the pattern split on is that name and a '/'. */
  lemma NodeModulesHasNoSlash()
    ensures '/' !in NodeModules && NodeModulesDir == NodeModules + "/"
  {
  }

  /** Where `node_modules/` occurs, the text up to its '/' ends in `node_modules`,
      holds no '/' from the occurrence on, and is followed by a '/'. */
  lemma NestedDirShape(rest: string, j: nat)
    requires OccursAt(rest, NodeModulesDir, j)
    ensures EndsWith(rest[..j + 12], NodeModules)
    ensures forall i :: j <= i < j + 12 ==> rest[i] != '/'
    ensures OccursAt(rest, "/", j + 12)
  {
    NodeModulesHasNoSlash();
    assert rest[..j + 12][j..] == rest[j..j + 13][..12];
    forall i | j <= i < j + 12
      ensures rest[i] != '/'
    {
      assert rest[i] == NodeModules[i - j];
    }
    OccursAtChar(rest, '/', j + 12);
    assert rest[j + 12] == rest[j..j + 13][12];
  }

  /** Cutting `rest` at its first `node_modules/` keeps its first '/'-segment, when
      that segment does not end in `node_modules`. */
  lemma SegmentBeforeNestedDir(rest: string)
    requires !EndsWith(FirstPiece(rest, "/"), NodeModules)
    ensures FirstPiece(FirstPiece(rest, NodeModulesDir), "/") == FirstPiece(rest, "/")
  {
    match IndexOf(rest, NodeModulesDir)
    case None =>
    case Some(j) =>
      NestedDirShape(rest, j);
      IndexOfIsEarliest(rest, "/");
      match IndexOf(rest, "/")
      case None =>
        assert false;
      case Some(p) =>
        OccursAtChar(rest, '/', p);
        if p >= j {
          assert false;
        }
        assert p < j;
        var cut := rest[..j];
        assert cut[p] == '/';
        OccursAtChar(cut, '/', p);
        forall k: nat | k < p
          ensures !OccursAt(cut, "/", k)
        {
          OccursAtChar(cut, '/', k);
          OccursAtChar(rest, '/', k);
        }
        IndexOfIsFirst(cut, "/", p);
        assert cut[..p] == rest[..p];
  }

  /** When the text before a `node_modules/` holds no earlier one (not even one that
      runs into it), that occurrence is the first, and the text after it is the rest. */
  lemma FirstNodeModulesDirAt(prefix: string, rest: string)
    requires !Contains(prefix + NodeModules, NodeModulesDir)
    ensures IndexOf(prefix + NodeModulesDir + rest, NodeModulesDir) == Some(|prefix|)
    ensures AfterFirst(prefix + NodeModulesDir + rest, NodeModulesDir) == rest
  {
    var id := prefix + NodeModulesDir + rest;
    var after := NodeModulesDir + rest;
    assert id == prefix + after;
    assert id[|prefix|..] == after;
    assert OccursAt(id, NodeModulesDir, |prefix|) by {
      assert id[|prefix|..|prefix| + 13] == after[..13];
    }
    NoEarlierNodeModulesDir(prefix, rest);
    IndexOfIsFirst(id, NodeModulesDir, |prefix|);
    assert id[|prefix| + 13..] == after[13..];
  }

  /** The occurrence-free case of `FirstNodeModulesDirAt`: an occurrence starting
      inside `prefix` would end inside `prefix + NodeModules`. */
  lemma NoEarlierNodeModulesDir(prefix: string, rest: string)
    requires !Contains(prefix + NodeModules, NodeModulesDir)
    ensures forall k: nat :: k < |prefix| ==> !OccursAt(prefix + NodeModulesDir + rest, NodeModulesDir, k)
  {
    var id := prefix + NodeModulesDir + rest;
    var head := prefix + NodeModules;
    assert id[..|head|] == head by {
      assert NodeModulesDir == NodeModules + "/";
      assert id == head + ("/" + rest);
    }
    ContainsIffOccurs(head, NodeModulesDir);
    forall k: nat | k < |prefix|
      ensures !OccursAt(id, NodeModulesDir, k)
    {
      assert !OccursAt(head, NodeModulesDir, k);
      assert id[k..k + 13] == id[..|head|][k..k + 13];
    }
  }

  /** A package directory under the first `node_modules/` names the chunk, so a
      scoped package is grouped under its `@scope` directory. */
  lemma ScopedPackageGroupsByScope(prefix: string, scope: string, pkgPath: string)
    requires !Contains(prefix + NodeModules, NodeModulesDir)
    requires '/' !in scope && !EndsWith(scope, NodeModules)
    ensures ManualChunks(prefix + NodeModulesDir + scope + "/" + pkgPath) == Chunk(scope)
  {
    var rest := scope + "/" + pkgPath;
    var id := prefix + NodeModulesDir + rest;
    assert prefix + NodeModulesDir + scope + "/" + pkgPath == id;
    FirstNodeModulesDirAt(prefix, rest);
    assert OccursAt(rest, "/", |scope|) by {
      assert rest[|scope|..|scope| + 1] == "/";
    }
    forall k: nat | k < |scope|
      ensures !OccursAt(rest, "/", k)
    {
      OccursAtChar(rest, '/', k);
      assert rest[k] == scope[k];
    }
    IndexOfIsFirst(rest, "/", |scope|);
    assert FirstPiece(rest, "/") == scope;
    ChunkNameIsFirstSegment(id);
  }

  /** The evident reading fails for a package directory nested right under another
      `node_modules`: the chunk name is empty, not `node_modules`. */
  lemma NestedNodeModulesGivesEmptyName(prefix: string, tail: string)
    requires !Contains(prefix + NodeModules, NodeModulesDir)
    ensures ManualChunks(prefix + NodeModulesDir + NodeModulesDir + tail) == Chunk("")
  {
    var rest := NodeModulesDir + tail;
    var id := prefix + NodeModulesDir + rest;
    assert prefix + NodeModulesDir + NodeModulesDir + tail == id;
    FirstNodeModulesDirAt(prefix, rest);
    assert OccursAt(rest, NodeModulesDir, 0) by {
      assert rest[..13] == NodeModulesDir;
    }
    IndexOfIsFirst(rest, NodeModulesDir, 0);
    ManualChunksCases(id);
    SplitHead(id, NodeModulesDir);
    SplitLeadingPieces(id, NodeModulesDir);
    assert Split(id, NodeModulesDir)[1] == "";
    assert IndexOf("", "/").None?;
  }
}
