/**
 * The shared index the walker fills (`index[id] = {name, author, links}`)
 * and the whole-graph page `processIndex` renders from it.
 */
module Graph {
  import opened Documents
  import opened Markdown

  /** What `processUseCase` registers for a document, and the ids it links to. */
  datatype Entry = Entry(name: string, author: Field, links: seq<Id>)

  type Index = map<Id, Entry>

  /** Every link names an entry of the index. */
  predicate LinksClosed(index: Index)
  {
    forall id, j :: id in index && 0 <= j < |index[id].links| ==> index[id].links[j] in index
  }

  /** `b` holds every entry of `a`, unchanged. */
  predicate Extends(a: Index, b: Index)
  {
    forall id :: id in a ==> id in b && b[id] == a[id]
  }

  /** `b` holds every key of `a` under the same name. */
  predicate SameNames(a: Index, b: Index)
  {
    forall id :: id in a ==> id in b && b[id].name == a[id].name
  }

  predicate Distinct(s: seq<Id>)
  {
    forall i, j :: 0 <= i < j < |s| ==> s[i] != s[j]
  }

  /** `order` lists every key of `index` once, as `Object.entries(index)` does, in some order. */
  predicate IsEnumeration(order: seq<Id>, index: Index)
  {
    && Distinct(order)
    && (forall i :: 0 <= i < |order| ==> order[i] in index)
    && (forall id :: id in index ==> id in order)
  }

  /** The (id, name) pairs a page's "Descendant use-cases" list is written from (line 168). */
  function ChildRefs(index: Index, links: seq<Id>): (r: seq<(Id, string)>)
    requires forall j :: 0 <= j < |links| ==> links[j] in index
    ensures |r| == |links|
  {
    seq(|links|, j requires 0 <= j < |links| => (links[j], index[links[j]].name))
  }

  /** The j-th child reference is the j-th link with the name its entry holds. */
  lemma ChildRefsPairs(index: Index, links: seq<Id>, j: nat)
    requires forall i :: 0 <= i < |links| ==> links[i] in index
    requires j < |links|
    ensures ChildRefs(index, links)[j] == (links[j], index[links[j]].name)
  {
  }

  /** A later index gives the links the same names. */
  lemma ChildRefsStable(a: Index, b: Index, links: seq<Id>)
    requires forall j :: 0 <= j < |links| ==> links[j] in a
    requires SameNames(a, b)
    ensures forall j :: 0 <= j < |links| ==> links[j] in b
    ensures ChildRefs(a, links) == ChildRefs(b, links)
  {
  }

  // ---------------------------------------------------------------------
  // The index page (lines 62-96).
  // ---------------------------------------------------------------------

  const DiagramIntro := "The following diagram depicts the use-cases involved in the \""
  const DiagramOutro := "\"" + " use-case. Select the use-case to see the related data management plan."

  /** The front matter, the sentence that names the root and the opening of the flowchart. */
  function IndexHead(rootName: string): seq<Chunk>
  {
    [ Line("---"), Line("title: " + rootName), Line("---"), Line(""),
      Line(DiagramIntro + rootName + DiagramOutro),
      Line(""), Line("import Mermaid from '@theme/Mermaid';"), Line(""),
      Line("<Mermaid chart={`"), Line("    flowchart TD") ]
  }

  const IndexTail: seq<Chunk> := [Line("`}/>"), Line("")]

  /** The closing lines of lines 90-91: the flowchart's end, then an empty line. */
  lemma IndexTailText()
    ensures PageText(IndexTail) == "`}/>\n\n"
  {
    LineText([], "`}/>");
    LineText([Line("`}/>")], "");
  }

  /** The sentence of line 76 names the root use case between double quotes. */
  lemma DiagramSentence(rootName: string)
    ensures var s := DiagramIntro + rootName + DiagramOutro;
      && s[|DiagramIntro| - 1] == '"'
      && s[|DiagramIntro|..|DiagramIntro| + |rootName|] == rootName
      && s[|DiagramIntro| + |rootName|] == '"'
  {
    var s := DiagramIntro + rootName + DiagramOutro;
    assert s[|DiagramIntro| - 1] == DiagramIntro[|DiagramIntro| - 1];
    assert s[|DiagramIntro| + |rootName|] == DiagramOutro[0];
  }

  function NodeLine(id: Id, e: Entry): string
  {
    "    " + id + "([<a href='../" + id + "/index.html'>" + e.name + "</a>])"
  }

  function EdgeLine(from: Id, to: Id): string
  {
    "    " + from + " --> " + to
  }

  /** One node per listed key (lines 82-84). */
  function NodeLines(index: Index, order: seq<Id>): (r: seq<Chunk>)
    requires forall i :: 0 <= i < |order| ==> order[i] in index
    ensures |r| == |order|
  {
    seq(|order|, i requires 0 <= i < |order| => Line(NodeLine(order[i], index[order[i]])))
  }

  /** One edge per link of one entry, in link order (lines 86-88). */
  function EdgesFrom(id: Id, links: seq<Id>): (r: seq<Chunk>)
    ensures |r| == |links|
  {
    seq(|links|, j requires 0 <= j < |links| => Line(EdgeLine(id, links[j])))
  }

  /** The edges of every listed key, key by key (lines 85-89). */
  function EdgeLines(index: Index, order: seq<Id>): seq<Chunk>
    requires forall i :: 0 <= i < |order| ==> order[i] in index
  {
    if |order| == 0 then []
    else
      var k := |order| - 1;
      EdgeLines(index, order[..k]) + EdgesFrom(order[k], index[order[k]].links)
  }

  /** The index page, with the entries listed in `order`. */
  function IndexPage(index: Index, rootId: Id, order: seq<Id>): seq<Chunk>
    requires rootId in index
    requires forall i :: 0 <= i < |order| ==> order[i] in index
  {
    IndexHead(index[rootId].name) + NodeLines(index, order) + EdgeLines(index, order) + IndexTail
  }

  // ---------------------------------------------------------------------
  // Counting the links of an index.
  // ---------------------------------------------------------------------

  ghost function Pick(index: Index): Id
    requires |index| > 0
  {
    var id :| id in index; id
  }

  /** The number of links over all entries, independently of any order. */
  ghost function TotalLinks(index: Index): nat
    decreases |index|
  {
    if |index| == 0 then 0
    else
      var id := Pick(index);
      |index[id].links| + TotalLinks(index - {id})
  }

  /** Any entry can be counted first. */
  lemma {:induction false} TotalLinksRemove(index: Index, k: Id)
    requires k in index
    ensures TotalLinks(index) == |index[k].links| + TotalLinks(index - {k})
    decreases |index|
  {
    var p := Pick(index);
    if p != k {
      assert index - {p} - {k} == index - {k} - {p};
      TotalLinksRemove(index - {p}, k);
      TotalLinksRemove(index - {k}, p);
    }
  }

  /** The edges of a list of keys depend only on those keys' entries. */
  lemma {:induction false} EdgeLinesAgree(a: Index, b: Index, order: seq<Id>)
    requires forall i :: 0 <= i < |order| ==> order[i] in a && order[i] in b && a[order[i]] == b[order[i]]
    ensures EdgeLines(a, order) == EdgeLines(b, order)
    decreases |order|
  {
    if |order| > 0 {
      EdgeLinesAgree(a, b, order[..|order| - 1]);
    }
  }

  /** Without its last key, a listing enumerates the index without that key. */
  lemma EnumerationInit(order: seq<Id>, index: Index)
    requires IsEnumeration(order, index) && |order| > 0
    ensures IsEnumeration(order[..|order| - 1], index - {order[|order| - 1]})
  {
    var k := |order| - 1;
    var prefix := order[..k];
    assert forall i :: 0 <= i < k ==> prefix[i] != order[k];
    forall id | id in index - {order[k]}
      ensures id in prefix
    {
      var i :| 0 <= i < |order| && order[i] == id;
      assert i != k;
    }
  }

  /** The count of edge lines is the sum of the entries' link counts (lines 85-89). */
  lemma {:induction false} EdgeCount(index: Index, order: seq<Id>)
    requires IsEnumeration(order, index)
    ensures |EdgeLines(index, order)| == TotalLinks(index)
    decreases |order|
  {
    if |order| == 0 {
      assert index.Keys == {};
    } else {
      var k := |order| - 1;
      var last := order[k];
      var rest := index - {last};
      var prefix := order[..k];
      EnumerationInit(order, index);
      EdgeCount(rest, prefix);
      EdgeLinesAgree(index, rest, prefix);
      TotalLinksRemove(index, last);
    }
  }

  /** A list of distinct keys is as long as the set of its keys. */
  lemma {:induction false} DistinctCount(s: seq<Id>)
    requires Distinct(s)
    ensures |set i | 0 <= i < |s| :: s[i]| == |s|
    decreases |s|
  {
    if |s| > 0 {
      var k := |s| - 1;
      var prefix := s[..k];
      DistinctCount(prefix);
      assert (set i | 0 <= i < |s| :: s[i]) == (set i | 0 <= i < k :: prefix[i]) + {s[k]};
      assert s[k] !in (set i | 0 <= i < k :: prefix[i]);
    }
  }

  /** One node line per entry of the index (lines 82-84). */
  lemma NodeCount(index: Index, order: seq<Id>)
    requires IsEnumeration(order, index)
    ensures |NodeLines(index, order)| == |index|
  {
    DistinctCount(order);
    assert (set i | 0 <= i < |order| :: order[i]) == index.Keys;
  }

  /** Every entry has its node line. */
  lemma NodesComplete(index: Index, order: seq<Id>, id: Id)
    requires IsEnumeration(order, index)
    requires id in index
    ensures Line(NodeLine(id, index[id])) in NodeLines(index, order)
  {
    var i :| 0 <= i < |order| && order[i] == id;
    assert NodeLines(index, order)[i] == Line(NodeLine(id, index[id]));
  }

  /** Every edge line is a link of a listed entry. */
  lemma {:induction false} EdgesSound(index: Index, order: seq<Id>, n: nat)
    requires forall i :: 0 <= i < |order| ==> order[i] in index
    requires n < |EdgeLines(index, order)|
    ensures exists i, j ::
      && 0 <= i < |order| && 0 <= j < |index[order[i]].links|
      && EdgeLines(index, order)[n] == Line(EdgeLine(order[i], index[order[i]].links[j]))
    decreases |order|
  {
    var k := |order| - 1;
    var front := EdgeLines(index, order[..k]);
    if n < |front| {
      EdgesSound(index, order[..k], n);
      var i, j :| 0 <= i < k && 0 <= j < |index[order[..k][i]].links|
        && front[n] == Line(EdgeLine(order[..k][i], index[order[..k][i]].links[j]));
      assert order[..k][i] == order[i];
    } else {
      var j := n - |front|;
      assert EdgeLines(index, order)[n] == EdgesFrom(order[k], index[order[k]].links)[j];
    }
  }

  /** Every link of every listed entry has its edge line. */
  lemma {:induction false} EdgesComplete(index: Index, order: seq<Id>, i: nat, j: nat)
    requires forall x :: 0 <= x < |order| ==> order[x] in index
    requires i < |order| && j < |index[order[i]].links|
    ensures Line(EdgeLine(order[i], index[order[i]].links[j])) in EdgeLines(index, order)
    decreases |order|
  {
    var k := |order| - 1;
    var front := EdgeLines(index, order[..k]);
    var edges := EdgesFrom(order[k], index[order[k]].links);
    if i < k {
      EdgesComplete(index, order[..k], i, j);
      assert order[..k][i] == order[i];
      assert forall c :: c in front ==> c in front + edges;
    } else {
      assert (front + edges)[|front| + j] == edges[j];
    }
  }

  /** The title line and the sentence name the root entry (lines 73 and 76). */
  lemma IndexTitle(index: Index, rootId: Id, order: seq<Id>)
    requires rootId in index
    requires forall i :: 0 <= i < |order| ==> order[i] in index
    ensures |IndexPage(index, rootId, order)| == 12 + |order| + |EdgeLines(index, order)|
    ensures IndexPage(index, rootId, order)[1] == Line("title: " + index[rootId].name)
    ensures IndexPage(index, rootId, order)[4] == Line(DiagramIntro + index[rootId].name + DiagramOutro)
  {
  }

  // ---------------------------------------------------------------------
  // The renderer.
  // ---------------------------------------------------------------------

  /** Lists the keys of the index, each once (`Object.entries`). */
  method Enumerate(index: Index) returns (order: seq<Id>)
    ensures IsEnumeration(order, index)
  {
    order := [];
    var rest := index.Keys;
    while rest != {}
      invariant rest <= index.Keys
      invariant Distinct(order)
      invariant forall i :: 0 <= i < |order| ==> order[i] in index && order[i] !in rest
      invariant forall id :: id in index ==> id in rest || id in order
      decreases rest
    {
      var id :| id in rest;
      order := order + [id];
      rest := rest - {id};
    }
  }

  /** Lines 72-81. */
  method WriteIndexHead(name: string, out: PageWriter)
    modifies out
    ensures out.chunks == old(out.chunks) + IndexHead(name)
  {
    out.PrintLn("---");
    out.PrintLn("title: " + name);
    out.PrintLn("---");
    out.PrintLn("");
    out.PrintLn(DiagramIntro + name + DiagramOutro);
    out.PrintLn("");
    out.PrintLn("import Mermaid from '@theme/Mermaid';");
    out.PrintLn("");
    out.PrintLn("<Mermaid chart={`");
    out.PrintLn("    flowchart TD");
  }

  /** The first loop over the entries (lines 82-84). */
  method WriteNodes(index: Index, order: seq<Id>, out: PageWriter)
    requires forall i :: 0 <= i < |order| ==> order[i] in index
    modifies out
    ensures out.chunks == old(out.chunks) + NodeLines(index, order)
  {
    for i := 0 to |order|
      invariant out.chunks == old(out.chunks) + NodeLines(index, order[..i])
    {
      out.PrintLn(NodeLine(order[i], index[order[i]]));
      assert NodeLines(index, order[..i + 1]) == NodeLines(index, order[..i]) + [Line(NodeLine(order[i], index[order[i]]))];
      AppendTwice(old(out.chunks), NodeLines(index, order[..i]), [Line(NodeLine(order[i], index[order[i]]))]);
    }
    assert order[..|order|] == order;
  }

  /** The inner loop over one entry's links (lines 86-88). */
  method WriteEdgesFrom(from: Id, links: seq<Id>, out: PageWriter)
    modifies out
    ensures out.chunks == old(out.chunks) + EdgesFrom(from, links)
  {
    for j := 0 to |links|
      invariant out.chunks == old(out.chunks) + EdgesFrom(from, links[..j])
    {
      out.PrintLn(EdgeLine(from, links[j]));
      assert EdgesFrom(from, links[..j + 1]) == EdgesFrom(from, links[..j]) + [Line(EdgeLine(from, links[j]))];
      AppendTwice(old(out.chunks), EdgesFrom(from, links[..j]), [Line(EdgeLine(from, links[j]))]);
    }
    assert links[..|links|] == links;
  }

  /** The nested loops over the entries and their links (lines 85-89). */
  method WriteEdges(index: Index, order: seq<Id>, out: PageWriter)
    requires forall i :: 0 <= i < |order| ==> order[i] in index
    modifies out
    ensures out.chunks == old(out.chunks) + EdgeLines(index, order)
  {
    for i := 0 to |order|
      invariant out.chunks == old(out.chunks) + EdgeLines(index, order[..i])
    {
      WriteEdgesFrom(order[i], index[order[i]].links, out);
      assert order[..i + 1][..i] == order[..i];
      AppendTwice(old(out.chunks), EdgeLines(index, order[..i]), EdgesFrom(order[i], index[order[i]].links));
    }
    assert order[..|order|] == order;
  }

  /** Lines 90-91. */
  method WriteIndexTail(out: PageWriter)
    modifies out
    ensures out.chunks == old(out.chunks) + IndexTail
  {
    out.PrintLn("`}/>");
    out.PrintLn("");
  }

  /** `processIndex`: the page written for the index, listing the entries in `order`. */
  method ProcessIndex(index: Index, rootId: Id, order: seq<Id>) returns (page: seq<Chunk>)
    requires rootId in index
    requires IsEnumeration(order, index)
    ensures page == IndexPage(index, rootId, order)
  {
    var out := new PageWriter();
    WriteIndexHead(index[rootId].name, out);
    assert out.chunks == IndexHead(index[rootId].name);
    WriteNodes(index, order, out);
    WriteEdges(index, order, out);
    WriteIndexTail(out);
    page := out.chunks;
  }
}
