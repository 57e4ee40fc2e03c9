/** Export and import of prepared corpora (crates/orchestrator/src/tools/corpora.rs:38-195, 240-361). */
module CorpusTools {
  import opened Options
  import opened Disks

  const CORPORA_DIR := "_corpora"
  const MANIFEST := "corpus.toml"
  const DATASETS := "datasets"
  const STORE := "vector_store"
  const RAG := "rag.jsonl"

  function DatasetFiles(): seq<string> {
    [RAG, "sft.jsonl", "eval.jsonl"]
  }

  function FileAt(f: string): Path {
    [DATASETS, f]
  }

  function ProjectDir(root: Path, project: string): Path {
    root + [project]
  }

  function CorpusDir(root: Path, name: string): Path {
    root + [CORPORA_DIR, name]
  }

  lemma {:induction false} FilesDiffer(i: nat, j: nat)
    requires i < j < |DatasetFiles()|
    ensures DatasetFiles()[i] != DatasetFiles()[j]
  {
    assert DatasetFiles()[0][0] == 'r' && DatasetFiles()[1][0] == 's' && DatasetFiles()[2][0] == 'e';
  }

  // ------------------------------------------------------------------------------------------
  // What a corpus holds
  // ------------------------------------------------------------------------------------------

  /** The dataset file is in the corpus as it was in the project, or in neither. */
  ghost predicate FileCopied(t: Tree, project: Path, t': Tree, corpus: Path, f: string) {
    At(t', corpus, FileAt(f)) == if IsFile(t, project + FileAt(f)) then At(t, project, FileAt(f)) else None
  }

  ghost predicate StoreCopied(t: Tree, project: Path, t': Tree, corpus: Path) {
    if HasEntries(t, project + [STORE]) then SameTree(t, project + [STORE], t', corpus + [STORE])
    else forall r :: At(t', corpus + [STORE], r).None?
  }

  /** The corpus in `t'` holds all of the project's prepared work in `t`. */
  ghost predicate Holds(t: Tree, project: Path, t': Tree, corpus: Path) {
    && (forall f | f in DatasetFiles() :: FileCopied(t, project, t', corpus, f))
    && StoreCopied(t, project, t', corpus)
  }

  /** Only `p`, what is below it and directories on the way to it have changed. */
  ghost predicate OnlyAround(t: Tree, t': Tree, p: Path) {
    forall q | !(p <= q) :: SameNode(t, t', q) || (q <= p && q !in t && IsDir(t', q))
  }

  // ------------------------------------------------------------------------------------------
  // Export, step by step
  // ------------------------------------------------------------------------------------------

  /** The first `n` dataset files have been gone through; no store and no manifest yet. */
  ghost predicate Exporting(t: Tree, project: Path, t': Tree, corpus: Path, n: nat) {
    && WellFormed(t') && IsDir(t', corpus) && IsDir(t', corpus + [DATASETS])
    && OnlyAround(t, t', corpus)
    && (forall r :: At(t, project, r) == At(t', project, r))
    && (forall j | 0 <= j < |DatasetFiles()| ::
          if j < n then FileCopied(t, project, t', corpus, DatasetFiles()[j])
          else At(t', corpus, FileAt(DatasetFiles()[j])).None?)
    && (forall r :: At(t', corpus + [STORE], r).None?)
    && At(t', corpus, [MANIFEST]).None?
  }

  lemma {:induction false} AroundMore(t: Tree, t': Tree, t'': Tree, p: Path, q: Path)
    requires OnlyAround(t, t', p) && OnlyBelow(t', t'', q) && p <= q
    ensures OnlyAround(t, t'', p)
  {
    forall r | !(p <= r) ensures SameNode(t, t'', r) || (r <= p && r !in t && IsDir(t'', r)) {
      assert q <= r ==> p <= r;
      assert SameNode(t', t'', r);
      assert SameNode(t, t', r) || (r <= p && r !in t && IsDir(t', r));
    }
  }

  /** A change below one entry leaves what is below the others. */
  lemma {:induction false} OtherEntryStays(t: Tree, t': Tree, p: Path, n: string, other: string, r: Path)
    requires OnlyBelow(t, t', p + [n]) && n != other
    ensures At(t, p + [other], r) == At(t', p + [other], r)
  {
    var q := p + [other] + r;
    assert q[|p|] == other && (p + [n])[|p|] == n;
    assert SameNode(t, t', q);
  }

  lemma {:induction false} ApartStays(t: Tree, t': Tree, p: Path, q: Path, r: Path)
    requires OnlyBelow(t, t', q) && Apart(p, q)
    ensures At(t, p, r) == At(t', p, r)
  {
    ApartBelow(p, q, p + r);
    assert SameNode(t, t', p + r);
  }

  lemma {:induction false} EntriesDiffer()
    ensures DATASETS != STORE && DATASETS != MANIFEST && STORE != MANIFEST
  {
    assert DATASETS[0] == 'd' && STORE[0] == 'v' && MANIFEST[0] == 'c';
  }

  lemma {:induction false} FileStays(t: Tree, t': Tree, p: Path, n: string, f: string)
    requires OnlyBelow(t, t', p + [n]) && n != DATASETS
    ensures At(t, p, FileAt(f)) == At(t', p, FileAt(f))
  {
    OtherEntryStays(t, t', p, n, DATASETS, [f]);
    Deeper(t, p, DATASETS, [f]);
    Deeper(t', p, DATASETS, [f]);
    assert FileAt(f) == [DATASETS] + [f];
  }

  lemma {:induction false} ManifestStays(t: Tree, t': Tree, p: Path, n: string)
    requires OnlyBelow(t, t', p + [n]) && n != MANIFEST
    ensures At(t, p, [MANIFEST]) == At(t', p, [MANIFEST])
  {
    OtherEntryStays(t, t', p, n, MANIFEST, []);
    Deeper(t, p, MANIFEST, []);
    Deeper(t', p, MANIFEST, []);
    assert [MANIFEST] + [] == [MANIFEST];
  }

  lemma {:induction false} FilesStay(t: Tree, project: Path, t': Tree, t'': Tree, corpus: Path, n: string)
    requires forall f | f in DatasetFiles() :: FileCopied(t, project, t', corpus, f)
    requires OnlyBelow(t', t'', corpus + [n]) && n != DATASETS
    ensures forall f | f in DatasetFiles() :: FileCopied(t, project, t'', corpus, f)
  {
    hide OnlyBelow;
    hide FileAt;
    forall f | f in DatasetFiles() ensures FileCopied(t, project, t'', corpus, f) {
      assert FileCopied(t, project, t', corpus, f);
      FileStays(t', t'', corpus, n, f);
    }
  }

  /** In a new corpus directory there is nothing but the directory for the datasets. */
  lemma {:induction false} NewCorpus(t: Tree, t': Tree, corpus: Path, q: Path)
    requires WellFormed(t) && corpus !in t && PathMade(t, t', corpus + [DATASETS])
    requires corpus <= q && q in t'
    ensures q == corpus || q == corpus + [DATASETS]
  {
    if |corpus| < |q| { NothingBelow(t, corpus, q); } else { assert q == corpus; }
    assert q !in t;
    assert SameNode(t, t', q) || q <= corpus + [DATASETS];
    assert q <= corpus + [DATASETS] ==> q == (corpus + [DATASETS])[..|q|];
  }

  lemma {:induction false} NewCorpusAround(t: Tree, t': Tree, corpus: Path)
    requires PathMade(t, t', corpus + [DATASETS])
    ensures OnlyAround(t, t', corpus)
  {
    forall q | !(corpus <= q) ensures SameNode(t, t', q) || (q <= corpus && q !in t && IsDir(t', q)) {
      if q <= corpus + [DATASETS] { OnOneWay(corpus, q, corpus + [DATASETS]); }
      assert SameNode(t, t', q) || (q <= corpus + [DATASETS] && q !in t && IsDir(t', q));
    }
  }

  lemma {:induction false} ProjectStays(t: Tree, project: Path, t': Tree, corpus: Path, r: Path)
    requires Apart(project, corpus) && PathMade(t, t', corpus + [DATASETS])
    ensures At(t, project, r) == At(t', project, r)
  {
    ApartBelow(project, corpus, project + r);
    ChildIsApart(corpus, project, DATASETS);
    assert SameNode(t, t', project + r) || project + r <= corpus + [DATASETS];
    if project + r <= corpus + [DATASETS] { OnOneWay(project, project + r, corpus + [DATASETS]); }
  }

  lemma {:induction false} NewCorpusIsEmpty(t: Tree, t': Tree, corpus: Path, r: Path)
    requires WellFormed(t) && corpus !in t && PathMade(t, t', corpus + [DATASETS])
    requires r != [] && r != [DATASETS]
    ensures At(t', corpus, r).None?
  {
    assert r == (corpus + r)[|corpus|..];
    if corpus + r in t' { NewCorpus(t, t', corpus, corpus + r); }
  }

  lemma {:induction false} ExportStarts(t: Tree, project: Path, t': Tree, corpus: Path)
    requires WellFormed(t) && WellFormed(t') && corpus !in t && Apart(project, corpus)
    requires PathMade(t, t', corpus + [DATASETS]) && IsDir(t', corpus + [DATASETS])
    ensures Exporting(t, project, t', corpus, 0)
  {
    EntriesDiffer();
    NewCorpusAround(t, t', corpus);
    assert IsDir(t', corpus) by { assert (corpus + [DATASETS])[..|corpus|] == corpus; }
    hide WellFormed;
    hide PathMade;
    hide OnlyAround;
    hide IsDir;
    hide At;
    forall r ensures At(t, project, r) == At(t', project, r) { ProjectStays(t, project, t', corpus, r); }
    forall j | 0 <= j < |DatasetFiles()| ensures At(t', corpus, FileAt(DatasetFiles()[j])).None? {
      NewCorpusIsEmpty(t, t', corpus, FileAt(DatasetFiles()[j]));
    }
    forall r ensures At(t', corpus + [STORE], r).None? {
      Deeper(t', corpus, STORE, r);
      assert ([STORE] + r)[0] == STORE;
      NewCorpusIsEmpty(t, t', corpus, [STORE] + r);
    }
    NewCorpusIsEmpty(t, t', corpus, [MANIFEST]);
  }

  lemma {:induction false} FileIsNotStore(t: Tree, t': Tree, corpus: Path, f: string)
    requires OnlyBelow(t, t', corpus + FileAt(f))
    ensures OnlyBelow(t, t', corpus + [DATASETS])
  {
    forall q | !(corpus + [DATASETS] <= q) ensures SameNode(t, t', q) {
      assert corpus + [DATASETS] <= corpus + FileAt(f);
    }
  }

  lemma {:induction false} OtherFileStays(t: Tree, t': Tree, dir: Path, f: string, g: string)
    requires OnlyBelow(t, t', dir + FileAt(f)) && f != g
    ensures At(t, dir, FileAt(g)) == At(t', dir, FileAt(g))
  {
    var q := dir + FileAt(g);
    assert q[|dir| + 1] == g && (dir + FileAt(f))[|dir| + 1] == f;
    assert SameNode(t, t', q);
  }

  lemma {:induction false} OtherFilesStay(t: Tree, t': Tree, dir: Path, n: nat, j: nat)
    requires n < |DatasetFiles()| && j < |DatasetFiles()| && j != n
    requires OnlyBelow(t, t', dir + FileAt(DatasetFiles()[n]))
    ensures At(t, dir, FileAt(DatasetFiles()[j])) == At(t', dir, FileAt(DatasetFiles()[j]))
  {
    FilesDiffer(if j < n then j else n, if j < n then n else j);
    OtherFileStays(t, t', dir, DatasetFiles()[n], DatasetFiles()[j]);
  }

  /** A change of a dataset file of one directory leaves the other directory alone. */
  lemma {:induction false} OtherDirStays(t: Tree, t': Tree, t'': Tree, other: Path, dir: Path, f: string)
    requires OnlyBelow(t', t'', dir + FileAt(f)) && Apart(other, dir)
    requires forall r :: At(t, other, r) == At(t', other, r)
    ensures forall r :: At(t, other, r) == At(t'', other, r)
  {
    FileIsNotStore(t', t'', dir, f);
    forall r ensures At(t, other, r) == At(t'', other, r) {
      ChildIsApart(dir, other, DATASETS);
      ApartStays(t', t'', other, dir + [DATASETS], r);
    }
  }

  lemma {:induction false} OtherEntriesStay(t: Tree, t': Tree, dir: Path, f: string)
    requires OnlyBelow(t, t', dir + FileAt(f))
    ensures forall r :: At(t, dir + [STORE], r) == At(t', dir + [STORE], r)
    ensures At(t, dir, [MANIFEST]) == At(t', dir, [MANIFEST])
  {
    EntriesDiffer();
    FileIsNotStore(t, t', dir, f);
    forall r ensures At(t, dir + [STORE], r) == At(t', dir + [STORE], r) {
      OtherEntryStays(t, t', dir, DATASETS, STORE, r);
    }
    ManifestStays(t, t', dir, DATASETS);
  }

  lemma {:induction false} FileCopiedSince(t: Tree, project: Path, t': Tree, t'': Tree, corpus: Path, f: string)
    requires FileCopied(t', project, t'', corpus, f) && forall r :: At(t, project, r) == At(t', project, r)
    ensures FileCopied(t, project, t'', corpus, f)
  {
    assert At(t, project, FileAt(f)) == At(t', project, FileAt(f));
  }

  lemma {:induction false} FileCopiedStill(t: Tree, project: Path, t': Tree, t'': Tree, corpus: Path, f: string)
    requires FileCopied(t, project, t', corpus, f) && At(t', corpus, FileAt(f)) == At(t'', corpus, FileAt(f))
    ensures FileCopied(t, project, t'', corpus, f)
  {
  }

  /** One dataset file more: copied, or not there. */
  lemma {:induction false} FileExported(t: Tree, project: Path, t': Tree, t'': Tree, corpus: Path, n: nat)
    requires Exporting(t, project, t', corpus, n) && n < |DatasetFiles()| && Apart(project, corpus)
    requires WellFormed(t'') && OnlyBelow(t', t'', corpus + FileAt(DatasetFiles()[n]))
    requires FileCopied(t', project, t'', corpus, DatasetFiles()[n]) && IsDir(t'', corpus) && IsDir(t'', corpus + [DATASETS])
    ensures Exporting(t, project, t'', corpus, n + 1)
  {
    hide WellFormed;
    hide OnlyBelow;
    hide OnlyAround;
    hide Apart;
    hide At;
    hide IsDir;
    hide DatasetFiles;
    hide FileCopied;
    var f := DatasetFiles()[n];
    FileCopiedSince(t, project, t', t'', corpus, f);
    AroundMore(t, t', t'', corpus, corpus + FileAt(f));
    OtherDirStays(t, t', t'', project, corpus, f);
    OtherEntriesStay(t', t'', corpus, f);
    forall j | 0 <= j < |DatasetFiles()| && j != n
      ensures if j < n then FileCopied(t, project, t'', corpus, DatasetFiles()[j])
              else At(t'', corpus, FileAt(DatasetFiles()[j])).None?
    {
      OtherFilesStay(t', t'', corpus, n, j);
      if j < n { FileCopiedStill(t, project, t', t'', corpus, DatasetFiles()[j]); }
    }
  }

  /** All that is to be copied has been copied, and there is no manifest yet. */
  ghost predicate AllCopied(t: Tree, project: Path, t': Tree, corpus: Path) {
    && WellFormed(t') && IsDir(t', corpus) && OnlyAround(t, t', corpus) && Holds(t, project, t', corpus)
    && At(t', corpus, [MANIFEST]).None?
  }

  lemma {:induction false} SameEntries(t: Tree, t': Tree, p: Path)
    requires forall r :: At(t, p, r) == At(t', p, r)
    ensures HasEntries(t, p) <==> HasEntries(t', p)
  {
    assert At(t, p, []) == At(t', p, []) && p + [] == p;
    forall q | IsEntry(p, q) ensures q in t <==> q in t' {
      assert q == p + q[|p|..];
      assert At(t, p, q[|p|..]) == At(t', p, q[|p|..]);
    }
  }

  lemma {:induction false} SameBelow(t: Tree, t': Tree, p: Path, n: string)
    requires forall r :: At(t, p, r) == At(t', p, r)
    ensures forall r :: At(t, p + [n], r) == At(t', p + [n], r)
  {
    forall r ensures At(t, p + [n], r) == At(t', p + [n], r) {
      Deeper(t, p, n, r);
      Deeper(t', p, n, r);
    }
  }

  /** The store was copied, or there is none. */
  lemma {:induction false} StoreExported(t: Tree, project: Path, t': Tree, t'': Tree, corpus: Path)
    requires Exporting(t, project, t', corpus, |DatasetFiles()|)
    requires WellFormed(t'') && OnlyBelow(t', t'', corpus + [STORE])
    requires if HasEntries(t', project + [STORE]) then SameTree(t', project + [STORE], t'', corpus + [STORE]) else t'' == t'
    ensures AllCopied(t, project, t'', corpus)
  {
    EntriesDiffer();
    assert SameNode(t', t'', corpus);
    AroundMore(t, t', t'', corpus, corpus + [STORE]);
    SameBelow(t, t', project, STORE);
    SameEntries(t, t', project + [STORE]);
    hide HasEntries;
    hide WellFormed;
    hide OnlyBelow;
    hide OnlyAround;
    hide At;
    hide FileCopied;
    FilesStay(t, project, t', t'', corpus, STORE);
    ManifestStays(t', t'', corpus, STORE);
  }

  /** Writing the manifest, well or not, leaves the rest. */
  lemma {:induction false} ManifestWritten(t: Tree, project: Path, t': Tree, t'': Tree, corpus: Path)
    requires AllCopied(t, project, t', corpus) && OnlyBelow(t', t'', corpus + [MANIFEST])
    ensures OnlyAround(t, t'', corpus) && Holds(t, project, t'', corpus)
  {
    EntriesDiffer();
    AroundMore(t, t', t'', corpus, corpus + [MANIFEST]);
    FilesStay(t, project, t', t'', corpus, MANIFEST);
    hide HasEntries;
    hide OnlyBelow;
    hide OnlyAround;
    hide At;
    hide FileCopied;
    forall r ensures At(t', corpus + [STORE], r) == At(t'', corpus + [STORE], r) {
      OtherEntryStays(t', t'', corpus, MANIFEST, STORE, r);
    }
  }

  // ------------------------------------------------------------------------------------------
  // Export
  // ------------------------------------------------------------------------------------------

  datatype ExportResult = Exported | NotPrepared | AlreadyExists | ExportFailed

  lemma {:induction false} BlockedBefore(t: Tree, t': Tree, p: Path)
    requires PathMade(t, t', p)
    ensures Blocked(t', p) ==> Blocked(t, p)
  {
    if Blocked(t', p) {
      var q :| q <= p && IsFile(t', q);
      assert SameNode(t, t', q) || (q <= p && q !in t && IsDir(t', q));
      assert IsFile(t, q);
    }
  }

  lemma {:induction false} NothingAround(t: Tree, p: Path)
    ensures OnlyAround(t, t, p)
  {
  }

  ghost predicate ExportRefused(t: Tree, project: Path, corpus: Path) {
    !IsFile(t, project + FileAt(RAG)) || corpus in t
  }

  /** A use of one of the two tools. */
  datatype Use = Export(name: string) | Import(project: string)

  /** What a use leaves alone: an export anything but its own new corpus directory, an import anything
      but its project. */
  ghost predicate Leaves(root: Path, t: Tree, use: Use, t': Tree) {
    match use
    case Export(name) => if CorpusDir(root, name) in t then t' == t else OnlyAround(t, t', CorpusDir(root, name))
    case Import(project) => project != CORPORA_DIR && OnlyAround(t, t', ProjectDir(root, project))
  }

  /** A corpus with a manifest is complete. */
  ghost predicate ManifestMeansComplete(t: Tree, project: Path, t': Tree, corpus: Path) {
    OnlyAround(t, t', corpus) && (IsFile(t', corpus + [MANIFEST]) ==> Holds(t, project, t', corpus))
  }

  lemma {:induction false} OnlyTheCorpus(t: Tree, project: Path, t': Tree, corpus: Path)
    requires ManifestMeansComplete(t, project, t', corpus)
    ensures OnlyAround(t, t', corpus)
  {
  }

  lemma {:induction false} NoManifestYet(t: Tree, project: Path, t': Tree, corpus: Path)
    requires OnlyAround(t, t', corpus) && At(t', corpus, [MANIFEST]).None?
    ensures ManifestMeansComplete(t, project, t', corpus)
  {
  }

  lemma {:induction false} NoCorpusYet(t: Tree, project: Path, corpus: Path)
    requires WellFormed(t) && corpus !in t
    ensures ManifestMeansComplete(t, project, t, corpus)
  {
    NothingBelow(t, corpus, corpus + [MANIFEST]);
  }

  lemma {:induction false} BrokenCopy(t: Tree, project: Path, t': Tree, t'': Tree, corpus: Path, n: nat, f: string)
    requires Exporting(t, project, t', corpus, n) && OnlyBelow(t', t'', corpus + FileAt(f))
    ensures ManifestMeansComplete(t, project, t'', corpus)
  {
    EntriesDiffer();
    AroundMore(t, t', t'', corpus, corpus + FileAt(f));
    FileIsNotStore(t', t'', corpus, f);
    ManifestStays(t', t'', corpus, DATASETS);
    NoManifestYet(t, project, t'', corpus);
  }

  lemma {:induction false} BrokenStore(t: Tree, project: Path, t': Tree, t'': Tree, corpus: Path, n: nat)
    requires Exporting(t, project, t', corpus, n) && OnlyBelow(t', t'', corpus + [STORE])
    ensures ManifestMeansComplete(t, project, t'', corpus)
  {
    EntriesDiffer();
    AroundMore(t, t', t'', corpus, corpus + [STORE]);
    ManifestStays(t', t'', corpus, STORE);
    NoManifestYet(t, project, t'', corpus);
  }

  lemma {:induction false} ProjectIsApart(root: Path, project: string, name: string)
    requires project != CORPORA_DIR
    ensures Apart(ProjectDir(root, project), CorpusDir(root, name))
  {
    assert ProjectDir(root, project)[|root|] == project && CorpusDir(root, name)[|root|] == CORPORA_DIR;
  }

  /** The dataset files, as far as there are any. */
  lemma {:induction false} ExportingStands(t: Tree, project: Path, t': Tree, corpus: Path, n: nat)
    requires Exporting(t, project, t', corpus, n)
    ensures WellFormed(t') && IsDir(t', corpus) && IsDir(t', corpus + [DATASETS])
    ensures n < |DatasetFiles()| ==> At(t', corpus, FileAt(DatasetFiles()[n])).None?
  {
  }

  lemma {:induction false} FilePath(p: Path, f: string)
    ensures p + FileAt(f) != [] && (p + FileAt(f))[..|p + FileAt(f)| - 1] == p + [DATASETS]
  {
  }

  lemma {:induction false} FileNowCopied(t: Tree, t': Tree, project: Path, corpus: Path, f: string)
    requires At(t, corpus, FileAt(f)).None?
    requires if IsFile(t, project + FileAt(f)) then t' == t[corpus + FileAt(f) := t[project + FileAt(f)]] else t' == t
    ensures FileCopied(t, project, t', corpus, f)
  {
  }

  method ExportFiles(disk: Disk, scope: Path, corpus: Path, ghost before: Tree) returns (ok: bool)
    requires Exporting(before, scope, disk.tree, corpus, 0) && Apart(scope, corpus)
    modifies disk
    ensures WellFormed(disk.tree)
    ensures ok ==> Exporting(before, scope, disk.tree, corpus, |DatasetFiles()|)
    ensures !ok ==> disk.luck == 0 && ManifestMeansComplete(before, scope, disk.tree, corpus)
  {
    hide DatasetFiles;
    hide ManifestMeansComplete;
    hide OnlyBelow;
    hide OnlyAround;
    hide Exporting;
    hide FileCopied;
    hide WellFormed;
    hide Apart;
    var i := 0;
    while i < |DatasetFiles()|
      invariant i <= |DatasetFiles()| && Exporting(before, scope, disk.tree, corpus, i)
    {
      ghost var mid := disk.tree;
      ExportingStands(before, scope, mid, corpus, i);
      var file := DatasetFiles()[i];
      if IsFile(disk.tree, scope + FileAt(file)) {
        ok := disk.Copy(scope + FileAt(file), corpus + FileAt(file));
        FilePath(corpus, file);
        if !ok {
          BrokenCopy(before, scope, mid, disk.tree, corpus, i, file);
          return;
        }
        ParentsStay(mid, disk.tree, corpus, file);
      } else {
        NothingChanged(mid, corpus + FileAt(file));
      }
      FileNowCopied(mid, disk.tree, scope, corpus, file);
      FileExported(before, scope, mid, disk.tree, corpus, i);
      i := i + 1;
    }
    ExportingStands(before, scope, disk.tree, corpus, i);
    ok := true;
  }

  lemma {:induction false} ParentsStay(t: Tree, t': Tree, p: Path, f: string)
    requires OnlyBelow(t, t', p + FileAt(f)) && IsDir(t, p) && IsDir(t, p + [DATASETS])
    ensures IsDir(t', p) && IsDir(t', p + [DATASETS])
  {
    assert SameNode(t, t', p) && SameNode(t, t', p + [DATASETS]);
  }

  /** Fill the new corpus directory: datasets, store, and last the manifest. */
  method FillCorpus(disk: Disk, scope: Path, corpus: Path, manifest: string, ghost before: Tree) returns (ok: bool)
    requires Exporting(before, scope, disk.tree, corpus, 0) && Apart(scope, corpus)
    modifies disk
    ensures WellFormed(disk.tree) && ManifestMeansComplete(before, scope, disk.tree, corpus)
    ensures !ok ==> disk.luck == 0
    ensures ok ==> IsFile(disk.tree, corpus + [MANIFEST]) && disk.tree[corpus + [MANIFEST]] == File(manifest)
  {
    hide WellFormed;
    hide ManifestMeansComplete;
    hide Exporting;
    hide AllCopied;
    hide OnlyBelow;
    hide OnlyAround;
    hide PathMade;
    hide Holds;
    hide HasEntries;
    hide Vacant;
    hide SameTree;
    hide Apart;
    hide At;
    hide DatasetFiles;
    ok := ExportFiles(disk, scope, corpus, before);
    if !ok { return; }
    ghost var mid := disk.tree;
    if HasEntries(disk.tree, scope + [STORE]) {
      StoreCanBeCopied(before, scope, mid, corpus);
      ok := disk.CopyTree(scope + [STORE], corpus + [STORE]);
      if !ok {
        BrokenStore(before, scope, mid, disk.tree, corpus, |DatasetFiles()|);
        return;
      }
    } else {
      NothingChanged(mid, corpus + [STORE]);
      ExportingIsWellFormed(before, scope, mid, corpus);
    }
    StoreExported(before, scope, mid, disk.tree, corpus);
    mid := disk.tree;
    CopiedIsWellFormed(before, scope, mid, corpus);
    ok := disk.Put(corpus + [MANIFEST], manifest);
    ManifestWritten(before, scope, mid, disk.tree, corpus);
    Completed(before, scope, disk.tree, corpus);
  }

  /** Export: the manifest is written last, so whatever goes wrong, a corpus that has one is complete;
      nothing but the new corpus directory is touched. */
  method ExportCorpus(disk: Disk, root: Path, project: string, name: string, manifest: string) returns (r: ExportResult)
    requires WellFormed(disk.tree) && project != CORPORA_DIR
    modifies disk
    ensures WellFormed(disk.tree)
    ensures r.NotPrepared? <==> !IsFile(old(disk.tree), ProjectDir(root, project) + FileAt(RAG))
    ensures r.AlreadyExists? <==> !r.NotPrepared? && CorpusDir(root, name) in old(disk.tree)
    ensures r.NotPrepared? || r.AlreadyExists? ==> disk.tree == old(disk.tree)
    ensures r.NotPrepared? || r.AlreadyExists? <==>
              ExportRefused(old(disk.tree), ProjectDir(root, project), CorpusDir(root, name))
    ensures Leaves(root, old(disk.tree), Export(name), disk.tree)
    ensures CorpusDir(root, name) !in old(disk.tree) ==>
              ManifestMeansComplete(old(disk.tree), ProjectDir(root, project), disk.tree, CorpusDir(root, name))
    ensures r.ExportFailed? ==> disk.luck == 0 || Blocked(old(disk.tree), CorpusDir(root, name) + [DATASETS])
    ensures r.Exported? ==>
              var path := CorpusDir(root, name) + [MANIFEST];
              IsFile(disk.tree, path) && disk.tree[path] == File(manifest)
  {
    hide WellFormed;
    hide ManifestMeansComplete;
    hide Exporting;
    hide OnlyAround;
    hide PathMade;
    hide Holds;
    hide Apart;
    hide At;
    ghost var before := disk.tree;
    var scope, corpus := ProjectDir(root, project), CorpusDir(root, name);
    ProjectIsApart(root, project, name);
    if corpus !in disk.tree { NoCorpusYet(before, scope, corpus); }
    if !IsFile(disk.tree, scope + FileAt(RAG)) { return NotPrepared; }
    if corpus in disk.tree { return AlreadyExists; }
    var ok := disk.CreateDirAll(corpus + [DATASETS]);
    if !ok {
      NewCorpusAround(before, disk.tree, corpus);
      NewCorpusIsEmpty(before, disk.tree, corpus, [MANIFEST]);
      NoManifestYet(before, scope, disk.tree, corpus);
      BlockedBefore(before, disk.tree, corpus + [DATASETS]);
      return ExportFailed;
    }
    ExportStarts(before, scope, disk.tree, corpus);
    ok := FillCorpus(disk, scope, corpus, manifest, before);
    OnlyTheCorpus(before, scope, disk.tree, corpus);
    if !ok { return ExportFailed; }
    return Exported;
  }

  lemma {:induction false} Completed(t: Tree, project: Path, t': Tree, corpus: Path)
    requires OnlyAround(t, t', corpus) && Holds(t, project, t', corpus)
    ensures ManifestMeansComplete(t, project, t', corpus)
  {
  }

  lemma {:induction false} ExportingIsWellFormed(t: Tree, project: Path, t': Tree, corpus: Path)
    requires Exporting(t, project, t', corpus, |DatasetFiles()|)
    ensures WellFormed(t')
  {
  }

  lemma {:induction false} CopiedIsWellFormed(t: Tree, project: Path, t': Tree, corpus: Path)
    requires AllCopied(t, project, t', corpus)
    ensures WellFormed(t') && !IsDir(t', corpus + [MANIFEST])
    ensures corpus + [MANIFEST] != [] && IsDir(t', (corpus + [MANIFEST])[..|corpus + [MANIFEST]| - 1])
  {
    assert (corpus + [MANIFEST])[..|corpus + [MANIFEST]| - 1] == corpus;
  }

  lemma {:induction false} StoreCanBeCopied(t: Tree, project: Path, t': Tree, corpus: Path)
    requires Exporting(t, project, t', corpus, |DatasetFiles()|) && Apart(project, corpus)
    requires HasEntries(t', project + [STORE])
    ensures WellFormed(t') && IsDir(t', project + [STORE]) && Vacant(t', corpus + [STORE])
    ensures Apart(project + [STORE], corpus + [STORE])
    ensures corpus + [STORE] != [] && IsDir(t', (corpus + [STORE])[..|corpus + [STORE]| - 1])
    ensures !IsFile(t', corpus + [STORE])
  {
    hide DatasetFiles;
    hide OnlyAround;
    hide FileCopied;
    ChildrenApart(project, corpus, STORE);
    assert At(t', corpus + [STORE], []).None? && corpus + [STORE] + [] == corpus + [STORE];
    assert (corpus + [STORE])[..|corpus + [STORE]| - 1] == corpus;
  }

  // ------------------------------------------------------------------------------------------
  // Import
  // ------------------------------------------------------------------------------------------

  datatype ImportResult = Imported | CorpusNotFound | BadManifest | AlreadyPrepared | ImportFailed

  const SCHEMA_VERSION := 1

  /** The retrieval corpus is always wanted, the others on request. */
  predicate Wanted(f: string, includeSft: bool) {
    includeSft || f == RAG
  }

  /** A wanted file that the corpus has replaces the project's; any other stays. */
  ghost predicate FileImported(t: Tree, corpus: Path, t': Tree, project: Path, f: string, wanted: bool) {
    At(t', project, FileAt(f)) ==
      if wanted && IsFile(t, corpus + FileAt(f)) then At(t, corpus, FileAt(f)) else At(t, project, FileAt(f))
  }

  ghost predicate StoreImported(t: Tree, corpus: Path, t': Tree, project: Path) {
    if HasEntries(t, corpus + [STORE]) then SameTree(t, corpus + [STORE], t', project + [STORE])
    else forall r :: At(t', project + [STORE], r) == At(t, project + [STORE], r)
  }

  /** The project has what the corpus holds. */
  ghost predicate AllImported(t: Tree, corpus: Path, t': Tree, project: Path, includeSft: bool) {
    && (forall f | f in DatasetFiles() :: FileImported(t, corpus, t', project, f, Wanted(f, includeSft)))
    && StoreImported(t, corpus, t', project)
  }

  /** The project's prepared data: a retrieval corpus or a store that is not empty. */
  predicate Prepared(t: Tree, project: Path) {
    IsFile(t, project + FileAt(RAG)) || HasEntries(t, project + [STORE])
  }

  ghost predicate ImportRefused(t: Tree, corpus: Path, project: Path, schemaOf: string -> Option<int>) {
    || !IsFile(t, corpus + [MANIFEST])
    || schemaOf(t[corpus + [MANIFEST]].content) != Some(SCHEMA_VERSION)
    || Prepared(t, project)
  }

  ghost predicate Importing(t: Tree, corpus: Path, t': Tree, project: Path, includeSft: bool, n: nat) {
    && WellFormed(t') && IsDir(t', project) && IsDir(t', project + [DATASETS])
    && OnlyAround(t, t', project)
    && (forall r :: At(t, corpus, r) == At(t', corpus, r))
    && (forall j | 0 <= j < |DatasetFiles()| ::
          FileImported(t, corpus, t', project, DatasetFiles()[j], j < n && Wanted(DatasetFiles()[j], includeSft)))
    && (forall r :: At(t', project + [STORE], r) == At(t, project + [STORE], r))
  }

  lemma {:induction false} LongPathsStay(t: Tree, t': Tree, p: Path, r: Path)
    requires PathMade(t, t', p + [DATASETS]) && r != [] && r != [DATASETS]
    ensures At(t, p, r) == At(t', p, r)
  {
    assert |r| == 1 ==> r == [r[0]] && (p + r)[|p|] == r[0];
    assert (p + [DATASETS])[|p|] == DATASETS;
    assert SameNode(t, t', p + r);
  }

  lemma {:induction false} ImportStarts(t: Tree, corpus: Path, t': Tree, project: Path, includeSft: bool)
    requires WellFormed(t') && Apart(corpus, project)
    requires PathMade(t, t', project + [DATASETS]) && IsDir(t', project + [DATASETS])
    ensures Importing(t, corpus, t', project, includeSft, 0)
  {
    EntriesDiffer();
    NewCorpusAround(t, t', project);
    assert IsDir(t', project) by { assert (project + [DATASETS])[..|project|] == project; }
    hide WellFormed;
    hide PathMade;
    hide OnlyAround;
    hide IsDir;
    hide At;
    forall r ensures At(t, corpus, r) == At(t', corpus, r) { ProjectStays(t, corpus, t', project, r); }
    forall j | 0 <= j < |DatasetFiles()|
      ensures At(t, project, FileAt(DatasetFiles()[j])) == At(t', project, FileAt(DatasetFiles()[j]))
    {
      LongPathsStay(t, t', project, FileAt(DatasetFiles()[j]));
    }
    forall r ensures At(t, project + [STORE], r) == At(t', project + [STORE], r) {
      Deeper(t, project, STORE, r);
      Deeper(t', project, STORE, r);
      assert ([STORE] + r)[0] == STORE;
      LongPathsStay(t, t', project, [STORE] + r);
    }
  }

  lemma {:induction false} FileImportedSince(t: Tree, corpus: Path, t': Tree, t'': Tree, project: Path, f: string, wanted: bool)
    requires FileImported(t', corpus, t'', project, f, wanted) && forall r :: At(t, corpus, r) == At(t', corpus, r)
    requires FileImported(t, corpus, t', project, f, false)
    ensures FileImported(t, corpus, t'', project, f, wanted)
  {
    assert At(t, corpus, FileAt(f)) == At(t', corpus, FileAt(f));
  }

  lemma {:induction false} FileImportedStill(t: Tree, corpus: Path, t': Tree, t'': Tree, project: Path, f: string, wanted: bool)
    requires FileImported(t, corpus, t', project, f, wanted) && At(t', project, FileAt(f)) == At(t'', project, FileAt(f))
    ensures FileImported(t, corpus, t'', project, f, wanted)
  {
  }

  /** One dataset file more: copied, or passed over. */
  lemma {:induction false} FileWasImported(
      t: Tree, corpus: Path, t': Tree, t'': Tree, project: Path, includeSft: bool, n: nat)
    requires Importing(t, corpus, t', project, includeSft, n) && n < |DatasetFiles()| && Apart(corpus, project)
    requires WellFormed(t'') && OnlyBelow(t', t'', project + FileAt(DatasetFiles()[n]))
    requires FileImported(t', corpus, t'', project, DatasetFiles()[n], Wanted(DatasetFiles()[n], includeSft))
    requires IsDir(t'', project) && IsDir(t'', project + [DATASETS])
    ensures Importing(t, corpus, t'', project, includeSft, n + 1)
  {
    hide WellFormed;
    hide OnlyBelow;
    hide OnlyAround;
    hide Apart;
    hide At;
    hide IsDir;
    hide DatasetFiles;
    hide Wanted;
    hide FileImported;
    var f := DatasetFiles()[n];
    assert FileImported(t, corpus, t', project, f, n < n && Wanted(f, includeSft));
    FileImportedSince(t, corpus, t', t'', project, f, Wanted(f, includeSft));
    AroundMore(t, t', t'', project, project + FileAt(f));
    OtherDirStays(t, t', t'', corpus, project, f);
    OtherEntriesStay(t', t'', project, f);
    forall j | 0 <= j < |DatasetFiles()| && j != n
      ensures FileImported(t, corpus, t'', project, DatasetFiles()[j], j < n && Wanted(DatasetFiles()[j], includeSft))
    {
      OtherFilesStay(t', t'', project, n, j);
      FileImportedStill(t, corpus, t', t'', project, DatasetFiles()[j], j < n && Wanted(DatasetFiles()[j], includeSft));
    }
  }

  lemma {:induction false} ImportedFileStays(
      t: Tree, corpus: Path, t': Tree, t'': Tree, project: Path, f: string, wanted: bool)
    requires FileImported(t, corpus, t', project, f, wanted) && OnlyBelow(t', t'', project + [STORE])
    ensures FileImported(t, corpus, t'', project, f, wanted)
  {
    EntriesDiffer();
    FileStays(t', t'', project, STORE, f);
  }

  lemma {:induction false} StoreWasImported(t: Tree, corpus: Path, t': Tree, t'': Tree, project: Path, includeSft: bool)
    requires Importing(t, corpus, t', project, includeSft, |DatasetFiles()|) && OnlyBelow(t', t'', project + [STORE])
    requires if HasEntries(t', corpus + [STORE]) then SameTree(t', corpus + [STORE], t'', project + [STORE]) else t'' == t'
    ensures AllImported(t, corpus, t'', project, includeSft) && OnlyAround(t, t'', project)
  {
    AroundMore(t, t', t'', project, project + [STORE]);
    SameBelow(t, t', corpus, STORE);
    SameEntries(t, t', corpus + [STORE]);
    hide DatasetFiles;
    hide Wanted;
    hide HasEntries;
    hide OnlyBelow;
    hide OnlyAround;
    hide At;
    hide FileImported;
    forall f | f in DatasetFiles() ensures FileImported(t, corpus, t'', project, f, Wanted(f, includeSft)) {
      var j :| 0 <= j < |DatasetFiles()| && DatasetFiles()[j] == f;
      assert FileImported(t, corpus, t', project, DatasetFiles()[j],
                          j < |DatasetFiles()| && Wanted(DatasetFiles()[j], includeSft));
      ImportedFileStays(t, corpus, t', t'', project, f, Wanted(f, includeSft));
    }
  }

  /** An empty or missing directory has nothing below it. */
  lemma {:induction false} NoEntriesIsVacant(t: Tree, p: Path)
    requires WellFormed(t) && !HasEntries(t, p)
    ensures Vacant(t, p)
  {
    forall r | r != [] ensures At(t, p, r).None? {
      if !IsDir(t, p) {
        NothingBelow(t, p, p + r);
      } else {
        assert IsEntry(p, p + [r[0]]);
        if |r| == 1 { assert r == [r[0]]; } else {
          assert p + [r[0]] < p + r;
          NothingBelow(t, p + [r[0]], p + r);
        }
      }
    }
  }

  lemma {:induction false} StoreCanBeImported(t: Tree, corpus: Path, t': Tree, project: Path, includeSft: bool)
    requires Importing(t, corpus, t', project, includeSft, |DatasetFiles()|) && Apart(corpus, project)
    requires WellFormed(t) && !HasEntries(t, project + [STORE])
    ensures WellFormed(t') && Vacant(t', project + [STORE]) && Apart(corpus + [STORE], project + [STORE])
    ensures project + [STORE] != [] && IsDir(t', (project + [STORE])[..|project + [STORE]| - 1])
    ensures IsFile(t', project + [STORE]) ==> InTheWay(t, project)
  {
    assert At(t', project + [STORE], []) == At(t, project + [STORE], []) && project + [STORE] + [] == project + [STORE];
    SameEntries(t, t', project + [STORE]);
    NoEntriesIsVacant(t', project + [STORE]);
    ChildrenApart(corpus, project, STORE);
    assert (project + [STORE])[..|project + [STORE]| - 1] == project;
  }

  lemma {:induction false} FileNowImported(t: Tree, t': Tree, corpus: Path, project: Path, f: string, wanted: bool)
    requires if wanted && IsFile(t, corpus + FileAt(f)) then t' == t[project + FileAt(f) := t[corpus + FileAt(f)]] else t' == t
    ensures FileImported(t, corpus, t', project, f, wanted)
  {
  }

  lemma {:induction false} ImportingStands(t: Tree, corpus: Path, t': Tree, project: Path, includeSft: bool, n: nat)
    requires Importing(t, corpus, t', project, includeSft, n)
    ensures WellFormed(t') && IsDir(t', project) && IsDir(t', project + [DATASETS]) && OnlyAround(t, t', project)
  {
  }

  /** Something stands where the import is to put its directories or files. */
  ghost predicate InTheWay(t: Tree, project: Path) {
    || Blocked(t, project + [DATASETS])
    || IsFile(t, project + [STORE])
    || exists f :: f in DatasetFiles() && IsDir(t, project + FileAt(f))
  }

  lemma {:induction false} BlockedIsInTheWay(t: Tree, project: Path)
    ensures Blocked(t, project + [DATASETS]) ==> InTheWay(t, project)
  {
  }

  lemma {:induction false} NotInTheWay(t: Tree, corpus: Path, t': Tree, project: Path, includeSft: bool, n: nat)
    requires Importing(t, corpus, t', project, includeSft, n) && n < |DatasetFiles()|
    ensures IsDir(t', project + FileAt(DatasetFiles()[n])) ==> InTheWay(t, project)
  {
    var f := DatasetFiles()[n];
    assert FileImported(t, corpus, t', project, f, n < n && Wanted(f, includeSft));
    assert f in DatasetFiles();
  }

  /** Dataset file `i`: copied over if it is wanted and there. */
  method ImportFile(disk: Disk, corpus: Path, scope: Path, includeSft: bool, i: nat, ghost before: Tree) returns (ok: bool)
    requires Importing(before, corpus, disk.tree, scope, includeSft, i) && i < |DatasetFiles()| && Apart(corpus, scope)
    modifies disk
    ensures WellFormed(disk.tree) && OnlyAround(before, disk.tree, scope)
    ensures ok ==> Importing(before, corpus, disk.tree, scope, includeSft, i + 1)
    ensures !ok ==> disk.luck == 0 || InTheWay(before, scope)
  {
    hide OnlyBelow;
    hide OnlyAround;
    hide FileImported;
    hide WellFormed;
    hide Importing;
    hide Apart;
    hide InTheWay;
    hide Wanted;
    hide DatasetFiles;
    hide At;
    ghost var mid := disk.tree;
    var file := DatasetFiles()[i];
    ImportingStands(before, corpus, mid, scope, includeSft, i);
    NotInTheWay(before, corpus, mid, scope, includeSft, i);
    FilePath(scope, file);
    NothingChanged(mid, scope + FileAt(file));
    ok := true;
    if Wanted(file, includeSft) && IsFile(disk.tree, corpus + FileAt(file)) {
      ok := disk.Copy(corpus + FileAt(file), scope + FileAt(file));
    }
    AroundMore(before, mid, disk.tree, scope, scope + FileAt(file));
    if ok {
      FileNowImported(mid, disk.tree, corpus, scope, file, Wanted(file, includeSft));
      ParentsStay(mid, disk.tree, scope, file);
      FileWasImported(before, corpus, mid, disk.tree, scope, includeSft, i);
    }
  }

  method ImportFiles(disk: Disk, corpus: Path, scope: Path, includeSft: bool, ghost before: Tree) returns (ok: bool)
    requires Importing(before, corpus, disk.tree, scope, includeSft, 0) && Apart(corpus, scope)
    modifies disk
    ensures WellFormed(disk.tree) && OnlyAround(before, disk.tree, scope)
    ensures ok ==> Importing(before, corpus, disk.tree, scope, includeSft, |DatasetFiles()|)
    ensures !ok ==> disk.luck == 0 || InTheWay(before, scope)
  {
    hide DatasetFiles;
    hide OnlyAround;
    hide Importing;
    hide WellFormed;
    hide Apart;
    hide InTheWay;
    var i := 0;
    while i < |DatasetFiles()|
      invariant i <= |DatasetFiles()| && Importing(before, corpus, disk.tree, scope, includeSft, i)
    {
      ok := ImportFile(disk, corpus, scope, includeSft, i, before);
      if !ok { return; }
      i := i + 1;
    }
    ImportingStands(before, corpus, disk.tree, scope, includeSft, i);
    ok := true;
  }

  /** Import: only from a corpus that has a readable manifest, never into a project with prepared data;
      nothing but the project is touched, and when it is done the project has what the corpus holds. */
  method ImportCorpus(
      disk: Disk, root: Path, project: string, name: string, includeSft: bool, schemaOf: string -> Option<int>)
      returns (r: ImportResult)
    requires WellFormed(disk.tree) && project != CORPORA_DIR
    modifies disk
    ensures WellFormed(disk.tree) && Leaves(root, old(disk.tree), Import(project), disk.tree)
    ensures var path := CorpusDir(root, name) + [MANIFEST];
            && (r.CorpusNotFound? <==> !IsFile(old(disk.tree), path))
            && (r.BadManifest? <==> !r.CorpusNotFound? && schemaOf(old(disk.tree)[path].content) != Some(SCHEMA_VERSION))
    ensures r.AlreadyPrepared? <==>
              !r.CorpusNotFound? && !r.BadManifest? && Prepared(old(disk.tree), ProjectDir(root, project))
    ensures r.CorpusNotFound? || r.BadManifest? || r.AlreadyPrepared? <==>
              ImportRefused(old(disk.tree), CorpusDir(root, name), ProjectDir(root, project), schemaOf)
    ensures r.CorpusNotFound? || r.BadManifest? || r.AlreadyPrepared? ==> disk.tree == old(disk.tree)
    ensures r.ImportFailed? ==> disk.luck == 0 || InTheWay(old(disk.tree), ProjectDir(root, project))
    ensures r.Imported? ==>
              AllImported(old(disk.tree), CorpusDir(root, name), disk.tree, ProjectDir(root, project), includeSft)
  {
    hide DatasetFiles;
    hide OnlyAround;
    hide InTheWay;
    hide WellFormed;
    hide Importing;
    hide AllImported;
    hide OnlyBelow;
    hide PathMade;
    hide HasEntries;
    hide Vacant;
    hide SameTree;
    hide Apart;
    hide At;
    ghost var before := disk.tree;
    var scope, corpus := ProjectDir(root, project), CorpusDir(root, name);
    ProjectIsApart(root, project, name);
    ApartBothWays(scope, corpus);
    NothingAround(before, scope);
    if !IsFile(disk.tree, corpus + [MANIFEST]) { return CorpusNotFound; }
    if schemaOf(disk.tree[corpus + [MANIFEST]].content) != Some(SCHEMA_VERSION) { return BadManifest; }
    if IsFile(disk.tree, scope + FileAt(RAG)) || HasEntries(disk.tree, scope + [STORE]) { return AlreadyPrepared; }
    var ok := disk.CreateDirAll(scope + [DATASETS]);
    NewCorpusAround(before, disk.tree, scope);
    BlockedBefore(before, disk.tree, scope + [DATASETS]);
    BlockedIsInTheWay(before, scope);
    if !ok { return ImportFailed; }
    ImportStarts(before, corpus, disk.tree, scope, includeSft);
    ok := ImportFiles(disk, corpus, scope, includeSft, before);
    if !ok { return ImportFailed; }
    ghost var mid := disk.tree;
    StoreCanBeImported(before, corpus, mid, scope, includeSft);
    if HasEntries(disk.tree, corpus + [STORE]) {
      StoreIsDir(mid, corpus + [STORE]);
      ok := disk.CopyTree(corpus + [STORE], scope + [STORE]);
      AroundMore(before, mid, disk.tree, scope, scope + [STORE]);
      if !ok { return ImportFailed; }
    } else {
      NothingChanged(mid, scope + [STORE]);
    }
    StoreWasImported(before, corpus, mid, disk.tree, scope, includeSft);
    return Imported;
  }

  lemma {:induction false} ApartBothWays(p: Path, q: Path)
    requires Apart(p, q)
    ensures Apart(q, p)
  {
  }

  lemma {:induction false} StoreIsDir(t: Tree, p: Path)
    requires HasEntries(t, p)
    ensures IsDir(t, p)
  {
  }

  // ------------------------------------------------------------------------------------------
  // There and back again
  // ------------------------------------------------------------------------------------------

  /** What was exported from one project and imported into another is the same in both: from a corpus
      that is complete and was left alone in between, a full import gives every dataset file and the
      whole store. */
  lemma {:induction false} ExportThenImport(t0: Tree, from: Path, t1: Tree, corpus: Path, t2: Tree, to: Path, t3: Tree, f: string)
    requires ManifestMeansComplete(t0, from, t1, corpus) && IsFile(t1, corpus + [MANIFEST])
    requires forall r :: At(t1, corpus, r) == At(t2, corpus, r)
    requires AllImported(t2, corpus, t3, to, true)
    ensures f in DatasetFiles() && IsFile(t0, from + FileAt(f)) ==> At(t3, to, FileAt(f)) == At(t0, from, FileAt(f))
    ensures HasEntries(t0, from + [STORE]) ==> SameTree(t0, from + [STORE], t3, to + [STORE])
  {
    if f in DatasetFiles() && IsFile(t0, from + FileAt(f)) {
      assert FileCopied(t0, from, t1, corpus, f);
      assert At(t1, corpus, FileAt(f)) == At(t2, corpus, FileAt(f));
      assert FileImported(t2, corpus, t3, to, f, true);
    }
    if HasEntries(t0, from + [STORE]) {
      SameBelow(t1, t2, corpus, STORE);
      SameTreeEntries(t0, from + [STORE], t1, corpus + [STORE]);
      SameEntries(t1, t2, corpus + [STORE]);
    }
  }

  /** A completed import leaves a dataset file of the project as it is exactly when the file is not
      wanted, or the corpus has none, or has the same. */
  lemma {:induction false} FileStaysIff(t: Tree, corpus: Path, t': Tree, project: Path, includeSft: bool, f: string)
    requires AllImported(t, corpus, t', project, includeSft) && f in DatasetFiles()
    ensures At(t', project, FileAt(f)) == At(t, project, FileAt(f))
       <==> (Wanted(f, includeSft) && IsFile(t, corpus + FileAt(f)) ==>
               At(t, corpus, FileAt(f)) == At(t, project, FileAt(f)))
  {
    assert FileImported(t, corpus, t', project, f, Wanted(f, includeSft));
  }

  /** The guard of the import looks at the retrieval corpus and the store alone: any other dataset
      file of the project is replaced by the corpus's, whatever was in it. */
  lemma {:induction false} UnguardedFileIsReplaced(t: Tree, corpus: Path, t': Tree, project: Path, f: string)
    requires AllImported(t, corpus, t', project, true) && !Prepared(t, project) && f in DatasetFiles()
    requires IsFile(t, corpus + FileAt(f)) && IsFile(t, project + FileAt(f))
    requires t[corpus + FileAt(f)] != t[project + FileAt(f)]
    ensures f != RAG && At(t', project, FileAt(f)) != At(t, project, FileAt(f))
  {
    FileStaysIff(t, corpus, t', project, true, f);
  }

  lemma {:induction false} AroundIsApart(t: Tree, t': Tree, p: Path, q: Path, r: Path)
    requires OnlyAround(t, t', q) && Apart(p, q)
    ensures At(t, p, r) == At(t', p, r)
  {
    ApartBelow(p, q, p + r);
    assert SameNode(t, t', p + r) || p + r <= q;
    if p + r <= q { OnOneWay(p, p + r, q); }
  }

  lemma {:induction false} OtherCorpusIsApart(root: Path, name: string, other: string)
    requires name != other
    ensures Apart(CorpusDir(root, name), CorpusDir(root, other))
  {
    assert CorpusDir(root, name)[|root| + 1] == name && CorpusDir(root, other)[|root| + 1] == other;
  }

  lemma {:induction false} CorpusSurvivesUse(root: Path, t: Tree, use: Use, t': Tree, name: string)
    requires CorpusDir(root, name) in t && Leaves(root, t, use, t')
    ensures forall r :: At(t, CorpusDir(root, name), r) == At(t', CorpusDir(root, name), r)
    ensures CorpusDir(root, name) in t'
  {
    var corpus := CorpusDir(root, name);
    forall r ensures At(t, corpus, r) == At(t', corpus, r) {
      match use
      case Export(other) =>
        if other != name && CorpusDir(root, other) !in t {
          OtherCorpusIsApart(root, name, other);
          AroundIsApart(t, t', corpus, CorpusDir(root, other), r);
        }
      case Import(project) =>
        ProjectIsApart(root, project, name);
        ApartBothWays(ProjectDir(root, project), corpus);
        AroundIsApart(t, t', corpus, ProjectDir(root, project), r);
    }
    assert At(t, corpus, []) == At(t', corpus, []) && corpus + [] == corpus;
  }

  /** Once there, a corpus stays as it is through every sequence of exports and imports, whether they
      are refused, complete or break off: what is imported later is what was exported. */
  lemma {:induction false} CorpusStaysAsExported(root: Path, trees: seq<Tree>, uses: seq<Use>, name: string)
    requires |trees| == |uses| + 1 && CorpusDir(root, name) in trees[0]
    requires forall i | 0 <= i < |uses| :: Leaves(root, trees[i], uses[i], trees[i + 1])
    ensures forall r :: At(trees[0], CorpusDir(root, name), r) == At(trees[|uses|], CorpusDir(root, name), r)
    ensures CorpusDir(root, name) in trees[|uses|]
    decreases |uses|
  {
    if uses != [] {
      var n := |uses| - 1;
      CorpusStaysAsExported(root, trees[..n + 1], uses[..n], name);
      CorpusSurvivesUse(root, trees[n], uses[n], trees[n + 1], name);
    }
  }

  /** A name that nothing can be exported to and nothing imported from, whatever the project and
      however manifests are read. */
  ghost predicate Dead(root: Path, t: Tree, name: string) {
    var corpus := CorpusDir(root, name);
    && (forall project: string :: ExportRefused(t, ProjectDir(root, project), corpus))
    && (forall project: string, schemaOf :: ImportRefused(t, corpus, ProjectDir(root, project), schemaOf))
  }

  function AlwaysReadable(text: string): Option<int> {
    Some(SCHEMA_VERSION)
  }

  /** When there is a prepared project and an empty one, a name is dead exactly when its directory is
      there without a manifest, as an export that breaks off in between leaves it. */
  lemma {:induction false} DeadIff(root: Path, t: Tree, name: string, prepared: string, empty: string)
    requires IsFile(t, ProjectDir(root, prepared) + FileAt(RAG)) && !Prepared(t, ProjectDir(root, empty))
    ensures Dead(root, t, name) <==>
              CorpusDir(root, name) in t && !IsFile(t, CorpusDir(root, name) + [MANIFEST])
  {
    var corpus := CorpusDir(root, name);
    if Dead(root, t, name) {
      assert ExportRefused(t, ProjectDir(root, prepared), corpus);
      assert ImportRefused(t, corpus, ProjectDir(root, empty), AlwaysReadable);
    }
  }

  /** No sequence of exports and imports revives it. */
  lemma {:induction false} DeadStaysDead(root: Path, trees: seq<Tree>, uses: seq<Use>, name: string)
    requires |trees| == |uses| + 1
    requires CorpusDir(root, name) in trees[0] && !IsFile(trees[0], CorpusDir(root, name) + [MANIFEST])
    requires forall i | 0 <= i < |uses| :: Leaves(root, trees[i], uses[i], trees[i + 1])
    ensures Dead(root, trees[|uses|], name)
  {
    var corpus := CorpusDir(root, name);
    CorpusStaysAsExported(root, trees, uses, name);
    assert At(trees[0], corpus, [MANIFEST]) == At(trees[|uses|], corpus, [MANIFEST]);
  }

  lemma {:induction false} SameTreeEntries(t: Tree, p: Path, t': Tree, p': Path)
    requires SameTree(t, p, t', p') && HasEntries(t, p)
    ensures HasEntries(t', p')
  {
    var q :| q in t && IsEntry(p, q);
    assert q == p + q[|p|..];
    assert At(t, p, q[|p|..]) == At(t', p', q[|p|..]);
    assert IsEntry(p', p' + q[|p|..]);
    assert At(t, p, []) == At(t', p', []) && p + [] == p && p' + [] == p';
  }
}
