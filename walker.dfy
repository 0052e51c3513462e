/**
 * The walk over the use-case documents reachable from one root document:
 * `processFile` and `processUseCase` threading the shared index, and the
 * `run`/`process` driver that ends with the index page.
 */
module Build {
  import opened Wrappers
  import opened Documents
  import opened Validation
  import opened Markdown
  import opened Pages
  import opened Graph

  /** The ids `processFile` returns for a document's sub-use-cases, each resolved against the root directory (line 164). */
  function SubIds(hash: Path -> Id, resolve: (Path, string) -> Path, root: Path, subs: seq<string>): (r: seq<Id>)
    ensures |r| == |subs|
  {
    seq(|subs|, i requires 0 <= i < |subs| => hash(resolve(root, subs[i])))
  }

  /** Pushing a link that names an entry keeps the links closed. */
  lemma PushKeepsClosed(index: Index, id: Id, target: Id)
    requires LinksClosed(index)
    requires id in index && target in index
    ensures LinksClosed(index[id := index[id].(links := index[id].links + [target])])
  {
    var after := index[id := index[id].(links := index[id].links + [target])];
    forall k, j | k in after && 0 <= j < |after[k].links|
      ensures after[k].links[j] in after
    {
      if k == id && j == |index[id].links| {
        assert after[k].links[j] == target;
      } else {
        assert after[k].links[j] == index[k].links[j];
      }
    }
  }

  /** One more resolved child adds one more link line. */
  lemma ChildLinksPush(index: Index, links: seq<Id>, target: Id)
    requires forall j :: 0 <= j < |links| ==> links[j] in index
    requires target in index
    ensures ChildLinks(ChildRefs(index, links + [target]))
      == ChildLinks(ChildRefs(index, links)) + [Line(ChildLink(target, index[target].name))]
  {
    var refs := ChildRefs(index, links + [target]);
    assert refs[..|links|] == ChildRefs(index, links);
  }

  /** The ids of the first `i + 1` sub-use-cases extend those of the first `i`. */
  lemma SubIdsSnoc(hash: Path -> Id, resolve: (Path, string) -> Path, root: Path, subs: seq<string>, i: nat)
    requires i < |subs|
    ensures SubIds(hash, resolve, root, subs)[..i + 1]
      == SubIds(hash, resolve, root, subs)[..i] + [hash(resolve(root, subs[i]))]
  {
  }

  /**
   * Page `k` is the rendering of document `uc` as the index now stands: the
   * document passed its checks, its entry has its name and links to the ids
   * of its sub-use-cases in order, and the page is its rendering with those
   * children's names.
   */
  ghost predicate RendersAt(hash: Path -> Id, resolve: (Path, string) -> Path, root: Path,
                            index: Index, pages: map<Id, seq<Chunk>>, k: Id, uc: UseCase)
  {
    && k in index && k in pages
    && Truthy(uc.name) && CheckUseCase(uc).Pass?
    && index[k].name == uc.name.value
    && index[k].links == SubIds(hash, resolve, root, Items(uc.subUseCases))
    && (forall j :: 0 <= j < |index[k].links| ==> index[k].links[j] in index)
    && pages[k] == UseCasePage(uc, ChildRefs(index, index[k].links))
  }

  /** Every page renders a stored document whose path hashes to the page's id. */
  ghost predicate Sound(store: map<Path, Node>, hash: Path -> Id, resolve: (Path, string) -> Path, root: Path,
                        index: Index, pages: map<Id, seq<Chunk>>)
  {
    forall k :: k in pages ==>
      exists p :: p in store && hash(p) == k && store[p].Document?
        && RendersAt(hash, resolve, root, index, pages, k, store[p].useCase)
  }

  /** Adding a page under a new id keeps every other page and adds just that key. */
  lemma AddKeeps(pages: map<Id, seq<Chunk>>, id: Id, chunks: seq<Chunk>)
    requires id !in pages
    ensures forall k :: k in pages ==> k in pages[id := chunks] && pages[id := chunks][k] == pages[k]
    ensures pages[id := chunks].Keys == pages.Keys + {id}
  {
  }

  /**
   * Soundness survives a step that keeps every page and its entry, keeps
   * every name, and adds only pages that render a stored document.
   */
  lemma SoundStep(store: map<Path, Node>, hash: Path -> Id, resolve: (Path, string) -> Path, root: Path,
                  index0: Index, pages0: map<Id, seq<Chunk>>, index: Index, pages: map<Id, seq<Chunk>>)
    requires Sound(store, hash, resolve, root, index0, pages0)
    requires SameNames(index0, index)
    requires forall k :: k in pages0 ==> k in pages && pages[k] == pages0[k] && k in index && index[k] == index0[k]
    requires forall k :: k in pages && k !in pages0 ==>
      exists p :: p in store && hash(p) == k && store[p].Document?
        && RendersAt(hash, resolve, root, index, pages, k, store[p].useCase)
    ensures Sound(store, hash, resolve, root, index, pages)
  {
    forall k | k in pages0
      ensures exists p :: (p in store && hash(p) == k && store[p].Document?
        && RendersAt(hash, resolve, root, index, pages, k, store[p].useCase))
    {
      var p :| p in store && hash(p) == k && store[p].Document?
        && RendersAt(hash, resolve, root, index0, pages0, k, store[p].useCase);
      ChildRefsStable(index0, index, index0[k].links);
      assert RendersAt(hash, resolve, root, index, pages, k, store[p].useCase);
    }
  }

  // ---------------------------------------------------------------------
  // Which documents the walk reaches.
  // ---------------------------------------------------------------------

  /**
   * The paths `processUseCase` follows from the document at `p` (line 165):
   * its sub-use-cases resolved against the root directory; none when `p`
   * is not a stored document.
   */
  function ChildPaths(store: map<Path, Node>, resolve: (Path, string) -> Path, root: Path, p: Path): (r: seq<Path>)
    ensures p in store && store[p].Document? ==> |r| == |Items(store[p].useCase.subUseCases)|
  {
    if p in store && store[p].Document? then
      var subs := Items(store[p].useCase.subUseCases);
      seq(|subs|, i requires 0 <= i < |subs| => resolve(root, subs[i]))
    else []
  }

  /**
   * `chain` is a path of the walk: it begins at `start` and each later
   * element is a sub-use-case path of the document before it.
   */
  ghost predicate Chain(store: map<Path, Node>, resolve: (Path, string) -> Path, root: Path, start: Path,
                        chain: seq<Path>)
    decreases |chain|
  {
    && |chain| > 0
    && if |chain| == 1 then chain[0] == start
       else
         && Chain(store, resolve, root, start, chain[..|chain| - 1])
         && chain[|chain| - 1] in ChildPaths(store, resolve, root, chain[|chain| - 2])
  }

  /** `k` is the id of a path the walk can reach from `start`. */
  ghost predicate TracedKey(store: map<Path, Node>, hash: Path -> Id, resolve: (Path, string) -> Path, root: Path,
                            start: Path, k: Id)
  {
    exists chain :: Chain(store, resolve, root, start, chain) && hash(chain[|chain| - 1]) == k
  }

  /** Every entry is the id of a path the walk can reach from `start`. */
  ghost predicate Traced(store: map<Path, Node>, hash: Path -> Id, resolve: (Path, string) -> Path, root: Path,
                         start: Path, index: Index)
  {
    forall k :: k in index ==> TracedKey(store, hash, resolve, root, start, k)
  }

  /** A chain extends by any sub-use-case path of the document it ends at. */
  lemma ChainChild(store: map<Path, Node>, resolve: (Path, string) -> Path, root: Path, start: Path,
                   chain: seq<Path>, i: nat)
    requires Chain(store, resolve, root, start, chain)
    requires i < |ChildPaths(store, resolve, root, chain[|chain| - 1])|
    ensures var longer := chain + [ChildPaths(store, resolve, root, chain[|chain| - 1])[i]];
      Chain(store, resolve, root, start, longer) && longer[|longer| - 1] == ChildPaths(store, resolve, root, chain[|chain| - 1])[i]
  {
    var longer := chain + [ChildPaths(store, resolve, root, chain[|chain| - 1])[i]];
    assert longer[..|longer| - 1] == chain;
  }

  /** `p` names a stored document that passes its checks. */
  ghost predicate GoodDoc(store: map<Path, Node>, p: Path)
  {
    p in store && store[p].Document? && CheckUseCase(store[p].useCase).Pass?
  }

  /**
   * `e` is the error the build raises for `p` itself: a file-access error
   * when nothing readable is stored there (line 104), a decoding error
   * (line 105), or the first failing check of its document.
   */
  ghost predicate Blamed(store: map<Path, Node>, p: Path, e: Error)
  {
    if p !in store || store[p].Directory? then e == FileAccess(p)
    else if store[p].Unparsable? then e == ParseFailure(p)
    else CheckUseCase(store[p].useCase) == Fail(e)
  }

  /** Every chain from `start` ends at a stored document that passes its checks. */
  ghost predicate ChainsGood(store: map<Path, Node>, resolve: (Path, string) -> Path, root: Path, start: Path)
  {
    forall c :: Chain(store, resolve, root, start, c) ==> GoodDoc(store, c[|c| - 1])
  }

  /** Some chain from `start` ends at a path for which the build raises `e`. */
  ghost predicate ChainBlamed(store: map<Path, Node>, resolve: (Path, string) -> Path, root: Path, start: Path, e: Error)
  {
    exists c :: Chain(store, resolve, root, start, c) && Blamed(store, c[|c| - 1], e)
  }

  /** The ends of all chains from `start`: `start` and, with each stored document, its sub-use-case paths. */
  lemma ChainEnds(store: map<Path, Node>, resolve: (Path, string) -> Path, root: Path, start: Path, ends: iset<Path>)
    requires ends == iset c | Chain(store, resolve, root, start, c) :: c[|c| - 1]
    ensures start in ends
    ensures forall p, i :: p in ends && 0 <= i < |ChildPaths(store, resolve, root, p)| ==>
      ChildPaths(store, resolve, root, p)[i] in ends
  {
    assert Chain(store, resolve, root, start, [start]);
    forall p, i | p in ends && 0 <= i < |ChildPaths(store, resolve, root, p)|
      ensures ChildPaths(store, resolve, root, p)[i] in ends
    {
      var c :| Chain(store, resolve, root, start, c) && c[|c| - 1] == p;
      ChainChild(store, resolve, root, start, c, i);
    }
  }

  /**
   * The walker's state: the documents it can read, the root directory every
   * sub-use-case path is resolved against, `stringHash` and path
   * resolution, the shared index and the pages written so far.
   */
  class Walker {
    const store: map<Path, Node>
    const root: Path
    const hash: Path -> Id
    const resolve: (Path, string) -> Path
    /** The ids of the stored documents. */
    ghost const ids: set<Id>
    /** The root document the walk starts from. */
    ghost const start: Path
    /** The paths the walk can reach from `start`, and their ids. */
    ghost const reachable: iset<Path>
    ghost const reached: iset<Id>
    var index: Index
    var pages: map<Id, seq<Chunk>>

    constructor (store: map<Path, Node>, root: Path, hash: Path -> Id, resolve: (Path, string) -> Path, ghost start: Path)
      ensures this.store == store && this.root == root && this.hash == hash && this.resolve == resolve
      ensures this.start == start
      ensures reachable == iset c | Chain(store, resolve, root, start, c) :: c[|c| - 1]
      ensures forall k :: k in reached ==> TracedKey(store, hash, resolve, root, start, k)
      ensures index == map[] && pages == map[]
      ensures Counted()
    {
      this.store := store;
      this.root := root;
      this.hash := hash;
      this.resolve := resolve;
      ids := set p | p in store :: hash(p);
      this.start := start;
      ghost var ends := iset c | Chain(store, resolve, root, start, c) :: c[|c| - 1];
      ChainEnds(store, resolve, root, start, ends);
      reachable := ends;
      reached := iset p | p in ends :: hash(p);
      index := map[];
      pages := map[];
    }

    /**
     * Links name entries; every entry comes from a path reachable from the
     * root document; a page is written only for an entry, and renders a
     * stored document.
     */
    ghost predicate Valid()
      reads this
    {
      && LinksClosed(index) && (forall k :: k in index ==> k in reached)
      && pages.Keys <= index.Keys && Sound(store, hash, resolve, root, index, pages)
    }

    /** `subs` are the sub-use-cases of the stored document `file`, which the walk reaches. */
    ghost predicate Expands(file: Path, subs: seq<string>)
    {
      file in store && store[file].Document? && subs == Items(store[file].useCase.subUseCases) && file in reachable
    }

    /**
     * `ids` covers the id of every stored path, so `Pending()` bounds the
     * walk; `reachable` holds `start` and the sub-use-case paths of each of
     * its documents, and `reached` their ids.
     */
    ghost predicate Counted()
    {
      && (forall p :: p in store ==> hash(p) in ids)
      && start in reachable
      && (forall p :: p in reachable ==> hash(p) in reached)
      && (forall p, i :: p in reachable && 0 <= i < |ChildPaths(store, resolve, root, p)| ==>
            ChildPaths(store, resolve, root, p)[i] in reachable)
    }

    /** Every path the walk can reach names a stored document that passes its checks. */
    ghost predicate AllGood()
    {
      forall p :: p in reachable ==> GoodDoc(store, p)
    }

    /** `e` is the error of some path the walk can reach. */
    ghost predicate Blames(e: Error)
    {
      exists p :: p in reachable && Blamed(store, p, e)
    }

    /** Success when every reachable path is good; a failure is the error of a reachable path. */
    ghost predicate Answers(r: Result<Id, Error>)
    {
      && (AllGood() ==> r.Ok?)
      && (r.Err? ==> Blames(r.error))
    }

    /** The ids of stored documents that have no entry yet; every registration takes one of them. */
    ghost function Pending(): set<Id>
      reads this
    {
      ids - index.Keys
    }

    /**
     * What `processUseCase(id, uc)` leaves behind, given the index and the
     * pages before it: a nameless document fails before the index is
     * touched; any other is registered as {name, author, []}; a failing
     * check leaves only that registration; success means the links are the
     * sub-use-case ids in order and the page is the document's rendering.
     */
    ghost predicate Registered(id: Id, uc: UseCase, index0: Index, pages0: map<Id, seq<Chunk>>, r: Result<Id, Error>)
      reads this
    {
      && (!Truthy(uc.name) ==> r == Err(MissingUseCaseName) && index == index0 && pages == pages0)
      && (Truthy(uc.name) ==> id in index && index[id].name == uc.name.value && index[id].author == uc.author)
      && (Truthy(uc.name) && CheckUseCase(uc).Fail? ==>
            && r == Err(CheckUseCase(uc).error)
            && index == index0[id := Entry(uc.name.value, uc.author, [])]
            && pages == pages0)
      && (r.Ok? ==> r == Ok(id) && RendersAt(hash, resolve, root, index, pages, id, uc))
    }

    /**
     * `processFile(file)`: an id that has an entry is returned at once with
     * nothing read or written; otherwise the file is read, decoded and
     * processed as a use case.
     */
    method ProcessFile(file: Path) returns (r: Result<Id, Error>)
      requires Valid() && Counted() && file in reachable
      modifies this
      ensures Valid()
      ensures Extends(old(index), index)
      ensures forall k :: k in old(pages) ==> k in pages && pages[k] == old(pages)[k]
      ensures pages.Keys - old(pages).Keys <= index.Keys - old(index).Keys
      ensures old(index).Keys <= index.Keys
      ensures r.Ok? ==> r.value == hash(file) && hash(file) in index
      ensures r.Ok? ==> index.Keys - old(index).Keys <= pages.Keys
      ensures hash(file) in old(index) ==> r == Ok(hash(file)) && index == old(index) && pages == old(pages)
      ensures hash(file) !in old(index) && (file !in store || store[file].Directory?) ==>
        r == Err(FileAccess(file)) && index == old(index) && pages == old(pages)
      ensures hash(file) !in old(index) && file in store && store[file].Unparsable? ==>
        r == Err(ParseFailure(file)) && index == old(index) && pages == old(pages)
      ensures hash(file) !in old(index) && file in store && store[file].Document? ==>
        Registered(hash(file), store[file].useCase, old(index), old(pages), r)
      ensures Answers(r)
      decreases Pending(), 1
    {
      var id := hash(file);
      if id in index {
        return Ok(id);
      }
      if file !in store || store[file].Directory? {
        return Err(FileAccess(file));
      }
      if store[file].Unparsable? {
        return Err(ParseFailure(file));
      }
      r := ProcessUseCase(file, id, store[file].useCase);
    }

    /** `processUseCase(id, uc)`, for a stored document without an entry. */
    method ProcessUseCase(ghost file: Path, id: Id, uc: UseCase) returns (r: Result<Id, Error>)
      requires Valid() && Counted() && file in reachable
      requires file in store && store[file] == Document(uc) && id == hash(file) && id !in index
      modifies this
      ensures Valid()
      ensures Extends(old(index), index)
      ensures forall k :: k in old(pages) ==> k in pages && pages[k] == old(pages)[k]
      ensures pages.Keys - old(pages).Keys <= index.Keys - old(index).Keys
      ensures old(index).Keys <= index.Keys
      ensures r.Ok? ==> index.Keys - old(index).Keys <= pages.Keys
      ensures Registered(id, uc, old(index), old(pages), r)
      ensures Answers(r)
      decreases Pending(), 0
    {
      if !Truthy(uc.name) {
        assert Blamed(store, file, MissingUseCaseName);
        return Err(MissingUseCaseName);
      }
      Register(file, id, uc);
      ghost var registered := index.Keys;
      r := WritePage(file, id, uc);
      assert index.Keys - registered + {id} <= index.Keys - old(index).Keys;
    }

    /** `index[id] = {name, author, links: []}` for a named document whose path hashes to a pending id. */
    method Register(ghost file: Path, id: Id, uc: UseCase)
      requires Valid() && Counted() && file in reachable && hash(file) == id
      requires Truthy(uc.name) && id in ids && id !in index
      modifies this
      ensures Valid() && Counted()
      ensures index == old(index)[id := Entry(uc.name.value, uc.author, [])] && pages == old(pages)
      ensures Pending() < old(Pending())
    {
      assert id in Pending();
      index := index[id := Entry(uc.name.value, uc.author, [])];
      assert Pending() < old(Pending());
      SoundStep(store, hash, resolve, root, old(index), pages, index, pages);
    }

    /** The rest of `processUseCase` once `id` is registered without links: the page and, on success, its file. */
    method WritePage(ghost file: Path, id: Id, uc: UseCase) returns (r: Result<Id, Error>)
      requires Valid() && Counted() && file in reachable
      requires file in store && store[file] == Document(uc) && hash(file) == id
      requires Truthy(uc.name) && id in index && id !in pages && index[id] == Entry(uc.name.value, uc.author, [])
      modifies this
      ensures Valid()
      ensures id in index && index[id].name == uc.name.value && index[id].author == uc.author
      ensures forall k :: k in old(index) && k != id ==> k in index && index[k] == old(index)[k]
      ensures forall k :: k in old(pages) ==> k in pages && pages[k] == old(pages)[k]
      ensures pages.Keys - old(pages).Keys <= index.Keys - old(index).Keys + {id}
      ensures old(index).Keys <= index.Keys
      ensures CheckUseCase(uc).Fail? ==> r == Err(CheckUseCase(uc).error) && index == old(index) && pages == old(pages)
      ensures r.Ok? ==>
        && r == Ok(id)
        && RendersAt(hash, resolve, root, index, pages, id, uc)
        && index.Keys - old(index).Keys <= pages.Keys
      ensures Answers(r)
      decreases Pending(), 6
    {
      var out := new PageWriter();
      var s := ProcessDocument(uc, out);
      if s.Fail? {
        return Err(s.error);
      }
      r := FinishPage(file, id, uc, out);
    }

    /** After the document's own part is written: the descendants, then the page is kept under `id`. */
    method FinishPage(ghost file: Path, id: Id, uc: UseCase, out: PageWriter) returns (r: Result<Id, Error>)
      requires Valid() && Counted() && file in reachable
      requires file in store && store[file] == Document(uc) && hash(file) == id
      requires Truthy(uc.name) && id in index && id !in pages && index[id] == Entry(uc.name.value, uc.author, [])
      requires CheckUseCase(uc).Pass?
      requires out.chunks == [] + Preamble(uc) + AuthorAndBusinessCase(uc) + SourcesSection(Items(uc.dataSources))
      modifies this, out
      ensures Valid()
      ensures id in index && index[id].name == uc.name.value && index[id].author == uc.author
      ensures forall k :: k in old(index) && k != id ==> k in index && index[k] == old(index)[k]
      ensures forall k :: k in old(pages) ==> k in pages && pages[k] == old(pages)[k]
      ensures pages.Keys - old(pages).Keys <= index.Keys - old(index).Keys + {id}
      ensures old(index).Keys <= index.Keys
      ensures r.Ok? ==>
        && r == Ok(id)
        && RendersAt(hash, resolve, root, index, pages, id, uc)
        && index.Keys - old(index).Keys <= pages.Keys
      ensures Answers(r)
      decreases Pending(), 5
    {
      r := WriteDescendants(file, id, uc, out);
      if r.Ok? {
        UseCasePageParts(uc, ChildRefs(index, index[id].links));
        KeepPage(file, id, uc, out.chunks);
      }
    }

    /** `id`'s finished page is kept: the rendering of its stored document with its linked children. */
    method KeepPage(ghost file: Path, id: Id, uc: UseCase, chunks: seq<Chunk>)
      requires Valid() && file in store && store[file] == Document(uc) && hash(file) == id
      requires id in index && id !in pages && Truthy(uc.name) && CheckUseCase(uc).Pass?
      requires index[id].name == uc.name.value
      requires index[id].links == SubIds(hash, resolve, root, Items(uc.subUseCases))
      requires forall j :: 0 <= j < |index[id].links| ==> index[id].links[j] in index
      requires chunks == UseCasePage(uc, ChildRefs(index, index[id].links))
      modifies this
      ensures Valid() && index == old(index) && pages == old(pages)[id := chunks]
      ensures forall k :: k in old(pages) ==> k in pages && pages[k] == old(pages)[k]
      ensures pages.Keys == old(pages).Keys + {id}
      ensures RendersAt(hash, resolve, root, index, pages, id, uc)
    {
      pages := pages[id := chunks];
      AddKeeps(old(pages), id, chunks);
      assert RendersAt(hash, resolve, root, index, pages, id, store[file].useCase);
      SoundStep(store, hash, resolve, root, index, old(pages), index, pages);
    }

    /** The descendants part of the page: nothing without sub-use-cases, else its heading and the loop (lines 162-171). */
    method WriteDescendants(ghost file: Path, id: Id, uc: UseCase, out: PageWriter) returns (r: Result<Id, Error>)
      requires Valid() && Counted() && Expands(file, Items(uc.subUseCases))
      requires id in index && id !in pages && index[id].links == []
      modifies this, out
      ensures Valid()
      ensures id in index && index[id].name == old(index[id].name) && index[id].author == old(index[id].author)
      ensures forall k :: k in old(index) && k != id ==> k in index && index[k] == old(index)[k]
      ensures forall k :: k in old(pages) ==> k in pages && pages[k] == old(pages)[k]
      ensures pages.Keys - old(pages).Keys <= index.Keys - old(index).Keys
      ensures old(index).Keys <= index.Keys
      ensures r.Ok? ==>
        && r == Ok(id)
        && index[id].links == SubIds(hash, resolve, root, Items(uc.subUseCases))
        && (forall j :: 0 <= j < |index[id].links| ==> index[id].links[j] in index)
        && out.chunks == old(out.chunks) + DescendantsSection(uc, ChildRefs(index, index[id].links))
        && index.Keys - old(index).Keys <= pages.Keys
      ensures |Items(uc.subUseCases)| == 0 ==> r == Ok(id) && index == old(index) && pages == old(pages)
      ensures Answers(r)
      decreases Pending(), 4
    {
      var subs := Items(uc.subUseCases);
      if |subs| == 0 {
        return Ok(id);
      }
      out.Header(3, "Descendant use-cases");
      r := ProcessSubUseCases(file, id, subs, out);
      if r.Ok? {
        AppendTwice(old(out.chunks), [Heading(3, "Descendant use-cases")], ChildLinks(ChildRefs(index, index[id].links)));
      }
    }

    /**
     * What the walk below an entry `id` keeps, measured from `index0` and
     * `pages0`: links stay closed, `id` keeps its name and author, no
     * other entry and no page changes, and new pages belong to new entries.
     */
    ghost predicate Framed(id: Id, index0: Index, pages0: map<Id, seq<Chunk>>)
      reads this
    {
      && Valid()
      && id in index0 && id in index
      && index[id].name == index0[id].name && index[id].author == index0[id].author
      && id !in pages
      && index0.Keys <= index.Keys
      && (forall k :: k in index0 && k != id ==> index[k] == index0[k])
      && (forall k :: k in pages0 ==> k in pages && pages[k] == pages0[k])
      && pages.Keys - pages0.Keys <= index.Keys - index0.Keys
    }

    /**
     * The state after the first `i` sub-use-cases resolved: `id` links
     * their ids in order, every entry added since has its page, and one
     * link line per child was written after `chunks0`.
     */
    ghost predicate Linked(id: Id, subs: seq<string>, i: nat, index0: Index, pages0: map<Id, seq<Chunk>>,
                           chunks0: seq<Chunk>, out: PageWriter)
      reads this, out
    {
      && Framed(id, index0, pages0)
      && i <= |subs|
      && index[id].links == SubIds(hash, resolve, root, subs)[..i]
      && index.Keys - index0.Keys <= pages.Keys
      && out.chunks == chunks0 + ChildLinks(ChildRefs(index, index[id].links))
    }

    /** The loop over `subUseCases` (lines 162-171), for a registered entry without links. */
    method ProcessSubUseCases(ghost file: Path, id: Id, subs: seq<string>, out: PageWriter)
      returns (r: Result<Id, Error>)
      requires Valid() && Counted() && Expands(file, subs)
      requires id in index && id !in pages && index[id].links == []
      modifies this, out
      ensures Framed(id, old(index), old(pages))
      ensures r.Ok? ==> r == Ok(id) && Linked(id, subs, |subs|, old(index), old(pages), old(out.chunks), out)
      ensures Answers(r)
      decreases Pending(), 3
    {
      for i := 0 to |subs|
        invariant Linked(id, subs, i, old(index), old(pages), old(out.chunks), out)
      {
        r := ResolveChild(file, id, subs, i, old(index), old(pages), old(out.chunks), out);
        if r.Err? {
          return;
        }
      }
      return Ok(id);
    }

    /** Between the walk of child `i` and the push of its link: the child `subId` has an entry. */
    ghost predicate Resolved(id: Id, subs: seq<string>, i: nat, index0: Index, pages0: map<Id, seq<Chunk>>,
                             chunks0: seq<Chunk>, out: PageWriter, subId: Id)
      reads this, out
    {
      && Framed(id, index0, pages0)
      && i < |subs|
      && subId == hash(resolve(root, subs[i])) && subId in index
      && index[id].links == SubIds(hash, resolve, root, subs)[..i]
      && index.Keys - index0.Keys <= pages.Keys
      && out.chunks == chunks0 + ChildLinks(ChildRefs(index, index[id].links))
    }

    /** One pass of that loop: resolve and walk the child, then push its link (lines 164-169). */
    method ResolveChild(ghost file: Path, id: Id, subs: seq<string>, i: nat,
                        ghost index0: Index, ghost pages0: map<Id, seq<Chunk>>,
                        ghost chunks0: seq<Chunk>, out: PageWriter) returns (r: Result<Id, Error>)
      requires Counted() && Expands(file, subs) && i < |subs|
      requires Linked(id, subs, i, index0, pages0, chunks0, out)
      modifies this, out
      ensures Framed(id, index0, pages0)
      ensures r.Ok? ==> r.value == hash(resolve(root, subs[i])) && Linked(id, subs, i + 1, index0, pages0, chunks0, out)
      ensures Answers(r)
      decreases Pending(), 2
    {
      ghost var before := index;
      assert ChildPaths(store, resolve, root, file)[i] == resolve(root, subs[i]);
      r := ProcessFile(resolve(root, subs[i]));
      if r.Err? {
        return;
      }
      ChildRefsStable(before, index, before[id].links);
      PushLink(id, subs, i, index0, pages0, chunks0, out, r.value);
    }

    /** `index[id].links.push(subId)`, for an entry without a page yet and a child with an entry. */
    method AddLink(id: Id, subId: Id)
      requires Valid() && id in index && id !in pages && subId in index
      modifies this
      ensures Valid()
      ensures index == old(index)[id := old(index)[id].(links := old(index)[id].links + [subId])]
      ensures pages == old(pages)
    {
      PushKeepsClosed(index, id, subId);
      index := index[id := index[id].(links := index[id].links + [subId])];
      SoundStep(store, hash, resolve, root, old(index), pages, index, pages);
    }

    /** `index[id].links.push(subId)` and the child's link line. */
    method PushLink(id: Id, subs: seq<string>, i: nat, ghost index0: Index, ghost pages0: map<Id, seq<Chunk>>,
                    ghost chunks0: seq<Chunk>, out: PageWriter, subId: Id)
      requires Resolved(id, subs, i, index0, pages0, chunks0, out, subId)
      modifies this, out
      ensures Linked(id, subs, i + 1, index0, pages0, chunks0, out)
    {
      SubIdsSnoc(hash, resolve, root, subs, i);
      ghost var links := index[id].links;
      ghost var lines := ChildLinks(ChildRefs(index, links));
      AddLink(id, subId);
      ChildRefsStable(old(index), index, links);
      ChildLinksPush(index, links, subId);
      out.PrintLn(ChildLink(subId, index[subId].name));
      AppendTwice(chunks0, lines, [Line(ChildLink(subId, index[subId].name))]);
    }
  }

  /**
   * What the walk from root document `file` leaves on success: the root has
   * its entry, named after the document and linking to its sub-use-cases;
   * links stay in the index; every entry has its page; the root's page is
   * its rendering, and every page renders a stored document.
   */
  ghost predicate Walked(store: map<Path, Node>, file: Path, root: Path, hash: Path -> Id, resolve: (Path, string) -> Path,
                         graph: Index, pages: map<Id, seq<Chunk>>)
  {
    && file in store && store[file].Document?
    && hash(file) in graph
    && LinksClosed(graph)
    && pages.Keys == graph.Keys
    && RendersAt(hash, resolve, root, graph, pages, hash(file), store[file].useCase)
    && Sound(store, hash, resolve, root, graph, pages)
    && Traced(store, hash, resolve, root, file, graph)
  }

  /**
   * The state a walker ends in (its index, pages and reached ids) holds a
   * finished walk once the root document has rendered and every entry has a page.
   */
  lemma WalkerWalked(store: map<Path, Node>, file: Path, root: Path, hash: Path -> Id, resolve: (Path, string) -> Path,
                     graph: Index, pages: map<Id, seq<Chunk>>, reached: iset<Id>)
    requires LinksClosed(graph) && pages.Keys <= graph.Keys && Sound(store, hash, resolve, root, graph, pages)
    requires forall k :: k in graph ==> k in reached
    requires forall k :: k in reached ==> TracedKey(store, hash, resolve, root, file, k)
    requires file in store && store[file].Document? && graph.Keys <= pages.Keys
    requires RendersAt(hash, resolve, root, graph, pages, hash(file), store[file].useCase)
    ensures Walked(store, file, root, hash, resolve, graph, pages)
  {
    assert pages.Keys == graph.Keys;
    assert Traced(store, hash, resolve, root, file, graph) by {
      forall k | k in graph ensures TracedKey(store, hash, resolve, root, file, k) {
        assert k in reached;
      }
    }
  }

  /** A walker over the chain ends from `start` answers success when every chain ends at a good document. */
  lemma WalkerGood(w: Walker)
    requires w.reachable == iset c | Chain(w.store, w.resolve, w.root, w.start, c) :: c[|c| - 1]
    requires ChainsGood(w.store, w.resolve, w.root, w.start)
    ensures w.AllGood()
  {
    forall p | p in w.reachable
      ensures GoodDoc(w.store, p)
    {
      var c :| Chain(w.store, w.resolve, w.root, w.start, c) && c[|c| - 1] == p;
    }
  }

  /** An error a walker blames on a reachable path is blamed on the end of a chain from `start`. */
  lemma WalkerBlamed(w: Walker, e: Error)
    requires w.reachable == iset c | Chain(w.store, w.resolve, w.root, w.start, c) :: c[|c| - 1]
    requires w.Blames(e)
    ensures ChainBlamed(w.store, w.resolve, w.root, w.start, e)
  {
    var p :| p in w.reachable && Blamed(w.store, p, e);
    var c :| Chain(w.store, w.resolve, w.root, w.start, c) && c[|c| - 1] == p;
  }

  /** `processFile` on the root document with an empty index, for a root that is not a directory. */
  method Walk(store: map<Path, Node>, file: Path, root: Path, hash: Path -> Id, resolve: (Path, string) -> Path)
    returns (r: Result<(Index, map<Id, seq<Chunk>>), Error>)
    requires file in store && !store[file].Directory?
    ensures store[file].Unparsable? ==> r == Err(ParseFailure(file))
    ensures store[file].Document? && CheckUseCase(store[file].useCase).Fail? ==>
      r == Err(CheckUseCase(store[file].useCase).error)
    ensures r.Ok? ==> Walked(store, file, root, hash, resolve, r.value.0, r.value.1)
    ensures ChainsGood(store, resolve, root, file) ==> r.Ok?
    ensures r.Err? ==> ChainBlamed(store, resolve, root, file, r.error)
  {
    var walker := new Walker(store, root, hash, resolve, file);
    if ChainsGood(store, resolve, root, file) {
      WalkerGood(walker);
    }
    var top := walker.ProcessFile(file);
    if top.Err? {
      WalkerBlamed(walker, top.error);
      return Err(top.error);
    }
    WalkerWalked(store, file, root, hash, resolve, walker.index, walker.pages, walker.reached);
    return Ok((walker.index, walker.pages));
  }

  /**
   * A stored document whose id has a sound page was rendered with its
   * links, so each of its sub-use-cases has an entry, provided no other
   * stored path shares its id.
   */
  lemma CoverStep(store: map<Path, Node>, hash: Path -> Id, resolve: (Path, string) -> Path, root: Path,
                  graph: Index, pages: map<Id, seq<Chunk>>, p: Path, i: nat)
    requires Sound(store, hash, resolve, root, graph, pages)
    requires p in store && hash(p) in pages && forall q :: q in store && hash(q) == hash(p) ==> q == p
    requires i < |ChildPaths(store, resolve, root, p)|
    ensures hash(ChildPaths(store, resolve, root, p)[i]) in graph
  {
    var q :| q in store && hash(q) == hash(p) && store[q].Document?
      && RendersAt(hash, resolve, root, graph, pages, hash(p), store[q].useCase);
    assert graph[hash(p)].links[i] == hash(ChildPaths(store, resolve, root, p)[i]);
  }

  /** With an id in `graph`, a path's sub-use-case paths have their ids in `graph` too. */
  ghost predicate ChildClosed(store: map<Path, Node>, hash: Path -> Id, resolve: (Path, string) -> Path, root: Path,
                              graph: Index)
  {
    forall p, i :: hash(p) in graph && 0 <= i < |ChildPaths(store, resolve, root, p)| ==>
      hash(ChildPaths(store, resolve, root, p)[i]) in graph
  }

  /** A graph closed under sub-use-cases that holds the root's id holds the id of every chain's end. */
  lemma {:induction false} Covers(store: map<Path, Node>, file: Path, root: Path, hash: Path -> Id,
                                  resolve: (Path, string) -> Path, graph: Index, chain: seq<Path>)
    requires ChildClosed(store, hash, resolve, root, graph) && hash(file) in graph
    requires Chain(store, resolve, root, file, chain)
    ensures hash(chain[|chain| - 1]) in graph
    decreases |chain|
  {
    if |chain| > 1 {
      var prefix := chain[..|chain| - 1];
      assert prefix[|prefix| - 1] == chain[|chain| - 2];
      Covers(store, file, root, hash, resolve, graph, prefix);
    }
  }

  /** When `stringHash` tells the stored paths apart, a finished walk is closed under sub-use-cases. */
  lemma WalkedClosed(store: map<Path, Node>, file: Path, root: Path, hash: Path -> Id,
                     resolve: (Path, string) -> Path, graph: Index, pages: map<Id, seq<Chunk>>)
    requires Walked(store, file, root, hash, resolve, graph, pages)
    requires forall p, q :: p in store && q in store && hash(p) == hash(q) ==> p == q
    ensures ChildClosed(store, hash, resolve, root, graph)
  {
    forall p, i | hash(p) in graph && 0 <= i < |ChildPaths(store, resolve, root, p)|
      ensures hash(ChildPaths(store, resolve, root, p)[i]) in graph
    {
      CoverStep(store, hash, resolve, root, graph, pages, p, i);
    }
  }

  /**
   * When `stringHash` tells the stored paths apart, the entries of a
   * finished walk are exactly the ids of the paths reachable from its root
   * document.
   */
  lemma WalkedReach(store: map<Path, Node>, file: Path, root: Path, hash: Path -> Id,
                    resolve: (Path, string) -> Path, graph: Index, pages: map<Id, seq<Chunk>>, k: Id)
    requires Walked(store, file, root, hash, resolve, graph, pages)
    requires forall p, q :: p in store && q in store && hash(p) == hash(q) ==> p == q
    ensures k in graph <==> TracedKey(store, hash, resolve, root, file, k)
  {
    if TracedKey(store, hash, resolve, root, file, k) {
      var chain :| Chain(store, resolve, root, file, chain) && hash(chain[|chain| - 1]) == k;
      WalkedClosed(store, file, root, hash, resolve, graph, pages);
      Covers(store, file, root, hash, resolve, graph, chain);
    }
  }

  /**
   * When `stringHash` tells all paths apart, a finished walk means every
   * chain from the root ends at a stored document that passes its checks:
   * with `Walk`'s own contract, the walk succeeds exactly when that holds.
   */
  lemma WalkedGood(store: map<Path, Node>, file: Path, root: Path, hash: Path -> Id,
                   resolve: (Path, string) -> Path, graph: Index, pages: map<Id, seq<Chunk>>)
    requires Walked(store, file, root, hash, resolve, graph, pages)
    requires forall p, q :: hash(p) == hash(q) ==> p == q
    ensures ChainsGood(store, resolve, root, file)
  {
    WalkedClosed(store, file, root, hash, resolve, graph, pages);
    forall c | Chain(store, resolve, root, file, c)
      ensures GoodDoc(store, c[|c| - 1])
    {
      Covers(store, file, root, hash, resolve, graph, c);
      var p := c[|c| - 1];
      var q :| q in store && hash(q) == hash(p) && store[q].Document?
        && RendersAt(hash, resolve, root, graph, pages, hash(p), store[q].useCase);
      assert q == p;
    }
  }

  /** What a successful run produces: the index, the page per id, the index page and the entry order it lists. */
  datatype Site = Site(graph: Index, pages: map<Id, seq<Chunk>>, order: seq<Id>, indexPage: seq<Chunk>)

  /**
   * `run` and `process` for one root document: it must exist and not be a
   * directory; every sub-use-case path is resolved against its directory
   * `parent(file)`; the walk is followed by the index page.
   */
  method Run(store: map<Path, Node>, file: Path, parent: Path -> Path, hash: Path -> Id, resolve: (Path, string) -> Path)
    returns (r: Result<Site, Error>)
    ensures file !in store ==> r == Err(FileAccess(file))
    ensures file in store && store[file].Directory? ==> r == Err(RootIsDirectory(file))
    ensures file in store && store[file].Unparsable? ==> r == Err(ParseFailure(file))
    ensures file in store && store[file].Document? && CheckUseCase(store[file].useCase).Fail? ==>
      r == Err(CheckUseCase(store[file].useCase).error)
    ensures r.Ok? ==>
      && Walked(store, file, parent(file), hash, resolve, r.value.graph, r.value.pages)
      && IsEnumeration(r.value.order, r.value.graph)
      && r.value.indexPage == IndexPage(r.value.graph, hash(file), r.value.order)
    ensures ChainsGood(store, resolve, parent(file), file) ==> r.Ok?
    ensures r.Err? ==>
      || (file in store && store[file].Directory? && r.error == RootIsDirectory(file))
      || ChainBlamed(store, resolve, parent(file), file, r.error)
  {
    assert Chain(store, resolve, parent(file), file, [file]);
    if file !in store {
      return Err(FileAccess(file));
    }
    if store[file].Directory? {
      return Err(RootIsDirectory(file));
    }
    var walked := Walk(store, file, parent(file), hash, resolve);
    if walked.Err? {
      return Err(walked.error);
    }
    var (graph, pages) := walked.value;
    var order := Enumerate(graph);
    var indexPage := ProcessIndex(graph, hash(file), order);
    return Ok(Site(graph, pages, order, indexPage));
  }
}
