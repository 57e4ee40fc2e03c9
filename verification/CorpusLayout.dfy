/** Where a corpus and a project keep what, and what of it is carried over, path by path
    (crates/orchestrator/src/tools/corpora.rs:36-41, 117-195, 258-332). */
module CorpusLayout {
  import opened Options
  import opened Disks
  import opened CorpusTools

  function NodeAt(t: Tree, p: Path): Option<Node> {
    if p in t then Some(t[p]) else None
  }

  function FileOr(t: Tree, p: Path, otherwise: Option<Node>): Option<Node> {
    if IsFile(t, p) then Some(t[p]) else otherwise
  }

  /** Below these two paths everything is the same. */
  ghost predicate SameContents(t: Tree, p: Path, t': Tree, p': Path) {
    forall r: Path :: NodeAt(t, p + r) == NodeAt(t', p' + r)
  }

  /** The three dataset files. */
  predicate IsDataset(f: string) {
    f == "rag.jsonl" || f == "sft.jsonl" || f == "eval.jsonl"
  }

  lemma {:induction false} DatasetIff(f: string)
    ensures f in DatasetFiles() <==> IsDataset(f)
  {
    assert DatasetFiles()[0] == "rag.jsonl" && DatasetFiles()[1] == "sft.jsonl" && DatasetFiles()[2] == "eval.jsonl";
  }

  lemma {:induction false} NodeIsAt(t: Tree, p: Path, r: Path)
    ensures NodeAt(t, p + r) == At(t, p, r)
  {
  }

  lemma {:induction false} Layout(root: Path, project: string, name: string, f: string)
    ensures ProjectDir(root, project) + FileAt(f) == root + [project, "datasets", f]
    ensures CorpusDir(root, name) + FileAt(f) == root + ["_corpora", name, "datasets", f]
    ensures ProjectDir(root, project) + [STORE] == root + [project, "vector_store"]
    ensures CorpusDir(root, name) + [STORE] == root + ["_corpora", name, "vector_store"]
    ensures CorpusDir(root, name) + [MANIFEST] == root + ["_corpora", name, "corpus.toml"]
  {
  }

  lemma {:induction false} SameTreeIsSameContents(t: Tree, p: Path, t': Tree, p': Path)
    requires SameTree(t, p, t', p')
    ensures SameContents(t, p, t', p')
  {
    forall r: Path ensures NodeAt(t, p + r) == NodeAt(t', p' + r) {
      NodeIsAt(t, p, r);
      NodeIsAt(t', p', r);
      assert At(t, p, r) == At(t', p', r);
    }
  }

  /** A corpus with a manifest holds, under the same names, each of the three dataset files that the
      project had, no other one of the three, and the project's store if there was anything in it. */
  lemma {:induction false} CorpusHolds(t: Tree, root: Path, project: string, t': Tree, name: string, f: string)
    requires ManifestMeansComplete(t, ProjectDir(root, project), t', CorpusDir(root, name))
    requires IsFile(t', root + ["_corpora", name, "corpus.toml"])
    ensures IsDataset(f) ==>
              NodeAt(t', root + ["_corpora", name, "datasets", f]) == FileOr(t, root + [project, "datasets", f], None)
    ensures if HasEntries(t, root + [project, "vector_store"])
            then SameContents(t, root + [project, "vector_store"], t', root + ["_corpora", name, "vector_store"])
            else forall r: Path :: root + ["_corpora", name, "vector_store"] + r !in t'
  {
    Layout(root, project, name, f);
    var from, corpus := ProjectDir(root, project), CorpusDir(root, name);
    assert Holds(t, from, t', corpus);
    DatasetIff(f);
    if IsDataset(f) {
      assert FileCopied(t, from, t', corpus, f);
      NodeIsAt(t', corpus, FileAt(f));
      NodeIsAt(t, from, FileAt(f));
    }
    hide DatasetFiles;
    if HasEntries(t, from + [STORE]) {
      SameTreeIsSameContents(t, from + [STORE], t', corpus + [STORE]);
    } else {
      forall r: Path ensures corpus + [STORE] + r !in t' {
        NodeIsAt(t', corpus + [STORE], r);
        assert At(t', corpus + [STORE], r).None?;
      }
    }
  }

  /** A completed import: the project has the corpus's retrieval data, its tuning pairs only if they are
      wanted, and its store if there is anything in it; where the corpus has nothing, or nothing
      wanted, the project keeps what it had. */
  lemma {:induction false} ProjectHas(
      t: Tree, root: Path, name: string, t': Tree, project: string, includeSft: bool, f: string)
    requires AllImported(t, CorpusDir(root, name), t', ProjectDir(root, project), includeSft)
    ensures IsDataset(f) ==>
              var was := NodeAt(t, root + [project, "datasets", f]);
              NodeAt(t', root + [project, "datasets", f])
                == if includeSft || f == "rag.jsonl" then FileOr(t, root + ["_corpora", name, "datasets", f], was) else was
    ensures if HasEntries(t, root + ["_corpora", name, "vector_store"])
            then SameContents(t, root + ["_corpora", name, "vector_store"], t', root + [project, "vector_store"])
            else SameContents(t, root + [project, "vector_store"], t', root + [project, "vector_store"])
  {
    Layout(root, project, name, f);
    var corpus, to := CorpusDir(root, name), ProjectDir(root, project);
    DatasetIff(f);
    if IsDataset(f) {
      assert FileImported(t, corpus, t', to, f, Wanted(f, includeSft));
      NodeIsAt(t', to, FileAt(f));
      NodeIsAt(t, to, FileAt(f));
      NodeIsAt(t, corpus, FileAt(f));
    }
    hide DatasetFiles;
    if HasEntries(t, corpus + [STORE]) {
      SameTreeIsSameContents(t, corpus + [STORE], t', to + [STORE]);
    } else {
      forall r: Path ensures NodeAt(t, to + [STORE] + r) == NodeAt(t', to + [STORE] + r) {
        NodeIsAt(t, to + [STORE], r);
        NodeIsAt(t', to + [STORE], r);
        assert At(t', to + [STORE], r) == At(t, to + [STORE], r);
      }
    }
  }

  /** What is refused: exporting without retrieval data or over a name that is taken; importing from a
      corpus without a manifest of this version, or into a project with retrieval data or a store. */
  lemma {:induction false} RefusalsByPath(t: Tree, root: Path, project: string, name: string, schemaOf: string -> Option<int>)
    ensures ExportRefused(t, ProjectDir(root, project), CorpusDir(root, name))
       <==> !IsFile(t, root + [project, "datasets", "rag.jsonl"]) || root + ["_corpora", name] in t
    ensures ImportRefused(t, CorpusDir(root, name), ProjectDir(root, project), schemaOf)
       <==> || !IsFile(t, root + ["_corpora", name, "corpus.toml"])
            || schemaOf(t[root + ["_corpora", name, "corpus.toml"]].content) != Some(1)
            || IsFile(t, root + [project, "datasets", "rag.jsonl"])
            || HasEntries(t, root + [project, "vector_store"])
  {
    Layout(root, project, name, "rag.jsonl");
  }
}
