/**
 * The per-document page: `processUseCase`'s rendering and the
 * `processDataSource`, `processObject` and `processAttribute` renderers it
 * calls, each as a method that checks and writes to the page's stream and
 * as the function giving what it writes.
 */
module Pages {
  import opened Wrappers
  import opened Documents
  import opened Validation
  import opened Markdown

  // What each renderer writes, for any decoded record. The renderers only
  // reach these writes once the record's checks have passed.

  function AttributeRow(a: Attribute): string
  {
    "| " + Interpolated(a.name) + " | " + Interpolated(a.description) + " |"
  }

  /** One table row per attribute, in order. */
  function AttributeRows(attrs: seq<Attribute>): (rows: seq<Chunk>)
    ensures |rows| == |attrs|
    ensures forall i :: 0 <= i < |attrs| ==> rows[i] == Line(AttributeRow(attrs[i]))
  {
    if |attrs| == 0 then []
    else AttributeRows(attrs[..|attrs| - 1]) + [Line(AttributeRow(attrs[|attrs| - 1]))]
  }

  const TableHead: seq<Chunk> := [Line("| Name | Description |"), Line("| ---- | ----------- |")]

  /** The two table-head lines of lines 213-214, as the characters they write. */
  lemma TableHeadText()
    ensures PageText(TableHead) == "| Name | Description |\n| ---- | ----------- |\n"
  {
    LineText([], "| Name | Description |");
    LineText([Line("| Name | Description |")], "| ---- | ----------- |");
  }

  /** What `processObject(obj, ds, out, level)` writes. */
  function ObjectChunks(o: DataObject, level: nat): seq<Chunk>
  {
    Titled(level + 1, Interpolated(o.name), TableHead + AttributeRows(Items(o.attributes)) + [Line("")])
  }

  function ObjectsChunks(objs: seq<DataObject>, level: nat): seq<Chunk>
  {
    if |objs| == 0 then []
    else ObjectsChunks(objs[..|objs| - 1], level) + ObjectChunks(objs[|objs| - 1], level)
  }

  /** The source's heading, description and data-flow block (lines 185-194). */
  function SourceOverview(ds: DataSource, level: nat): seq<Chunk>
  {
    [Heading(level, "Data Source: " + Interpolated(ds.name))]
    + Titled(level + 1, "Description", [Line(Shown(ds.description)), Line("")])
    + Titled(level + 1, "Data flow", [Line("<Mermaid chart={`"), Line(Shown(ds.flowChart)), Line("`}/>"), Line("")])
  }

  /** The permitted-use and retention texts and the heading over the tables (lines 195-202). */
  function SourcePolicy(ds: DataSource, level: nat): seq<Chunk>
  {
    Titled(level + 1, "Permitted use", [Line(Shown(ds.permittedUse)), Line("")])
    + Titled(level + 1, "Retention", [Line(Shown(ds.retention)), Line("")])
    + [Heading(level + 1, "Data attributes")]
  }

  /** What `processDataSource(ds, out, level)` writes. */
  function SourceChunks(ds: DataSource, level: nat): seq<Chunk>
  {
    SourceOverview(ds, level) + SourcePolicy(ds, level) + ObjectsChunks(Items(ds.data), level + 1)
  }

  function SourcesChunks(sources: seq<DataSource>, level: nat): seq<Chunk>
  {
    if |sources| == 0 then []
    else SourcesChunks(sources[..|sources| - 1], level) + SourceChunks(sources[|sources| - 1], level)
  }

  /** The data-source part of a page: one source inline at level 2, several under a "Data Sources" heading. */
  function SourcesSection(sources: seq<DataSource>): seq<Chunk>
  {
    if |sources| == 1 then SourceChunks(sources[0], 2)
    else if |sources| > 1 then [Heading(2, "Data Sources")] + SourcesChunks(sources, 3)
    else []
  }

  /** Front matter and the diagram import (lines 129-135). */
  function Preamble(uc: UseCase): seq<Chunk>
  {
    [Line("---"), Line("title: " + Interpolated(uc.name)), Line("---"), Line(""),
     Line("import Mermaid from '@theme/Mermaid';"), Line("")]
  }

  /** The author line and the business case (lines 139-148). */
  function AuthorAndBusinessCase(uc: UseCase): seq<Chunk>
  {
    [Line("Author: " + Interpolated(uc.author) + " (" + Interpolated(uc.email) + ")"), Line("")]
    + [Heading(2, "Business Case")]
    + Titled(3, "Description", [Line(Shown(uc.businessCase.description)), Line("")])
    + Titled(3, "Benefits to Our Customers", [Line(Shown(uc.businessCase.customerBenefits)), Line("")])
  }

  function ChildLink(id: Id, name: string): string
  {
    "- [" + name + "](../" + id + "/index.html)"
  }

  /** One link line per child (id, name), in order. */
  function ChildLinks(children: seq<(Id, string)>): (r: seq<Chunk>)
    ensures |r| == |children|
    ensures forall i :: 0 <= i < |children| ==> r[i] == Line(ChildLink(children[i].0, children[i].1))
  {
    if |children| == 0 then []
    else ChildLinks(children[..|children| - 1]) + [Line(ChildLink(children[|children| - 1].0, children[|children| - 1].1))]
  }

  /** The "Descendant use-cases" part, present only when the document lists sub-use-cases. */
  function DescendantsSection(uc: UseCase, children: seq<(Id, string)>): seq<Chunk>
  {
    if |Items(uc.subUseCases)| > 0 then Titled(3, "Descendant use-cases", ChildLinks(children)) else []
  }

  /**
   * The page `processUseCase` writes for a document whose sub-use-cases
   * resolved to `children`, as (id, name) pairs.
   */
  function UseCasePage(uc: UseCase, children: seq<(Id, string)>): seq<Chunk>
  {
    Preamble(uc) + AuthorAndBusinessCase(uc) + SourcesSection(Items(uc.dataSources)) + DescendantsSection(uc, children)
  }

  /**
   * A proof hint only: a page is the document's own part, written on an
   * empty page, followed by its descendants.
   */
  lemma UseCasePageParts(uc: UseCase, children: seq<(Id, string)>)
    ensures UseCasePage(uc, children)
      == [] + Preamble(uc) + AuthorAndBusinessCase(uc) + SourcesSection(Items(uc.dataSources)) + DescendantsSection(uc, children)
  {
    assert [] + Preamble(uc) == Preamble(uc);
  }

  // ---------------------------------------------------------------------
  // The structure of a page: its table and its headings.
  // ---------------------------------------------------------------------

  /**
   * An object's part is its heading one level below the caller's level, the
   * two-line table head, one row per attribute in order, and a blank line.
   */
  lemma ObjectTable(o: DataObject, level: nat)
    ensures var cs, attrs := ObjectChunks(o, level), Items(o.attributes);
      && |cs| == |attrs| + 4
      && cs[0] == Heading(level + 1, Interpolated(o.name))
      && cs[1] == Line("| Name | Description |")
      && cs[2] == Line("| ---- | ----------- |")
      && (forall i :: 0 <= i < |attrs| ==> cs[3 + i] == Line(AttributeRow(attrs[i])))
      && cs[|cs| - 1] == Line("")
  {
    var attrs := Items(o.attributes);
    var body := TableHead + AttributeRows(attrs) + [Line("")];
    TableBody(attrs);
    TitledShape(level + 1, Interpolated(o.name), body);
  }

  /** The table under an object's heading: the head, the rows, a blank line. */
  lemma TableBody(attrs: seq<Attribute>)
    ensures var body := TableHead + AttributeRows(attrs) + [Line("")];
      && |body| == |attrs| + 3
      && body[0] == Line("| Name | Description |")
      && body[1] == Line("| ---- | ----------- |")
      && (forall i :: 0 <= i < |attrs| ==> body[2 + i] == Line(AttributeRow(attrs[i])))
      && body[|body| - 1] == Line("")
  {
    var rows := AttributeRows(attrs);
    var body := TableHead + rows + [Line("")];
    forall i | 0 <= i < |attrs|
      ensures body[2 + i] == Line(AttributeRow(attrs[i]))
    {
      assert body[2 + i] == rows[i];
    }
  }

  /** The headings an object contributes: its name, one level below the caller's. */
  function ObjectHeadings(objs: seq<DataObject>, level: nat): (r: seq<(nat, string)>)
    ensures |r| == |objs|
  {
    seq(|objs|, i requires 0 <= i < |objs| => (level + 1, Interpolated(objs[i].name)))
  }

  /**
   * The headings a data source contributes, as the renderer writes them: its title at the
   * level it is given, five sub-headings one deeper and the objects' names
   * two deeper.
   */
  function SourceHeadings(ds: DataSource, level: nat): seq<(nat, string)>
  {
    [ (level, "Data Source: " + Interpolated(ds.name)),
      (level + 1, "Description"), (level + 1, "Data flow"), (level + 1, "Permitted use"),
      (level + 1, "Retention"), (level + 1, "Data attributes") ]
    + ObjectHeadings(Items(ds.data), level + 1)
  }

  function SourcesHeadings(sources: seq<DataSource>, level: nat): seq<(nat, string)>
  {
    if |sources| == 0 then []
    else SourcesHeadings(sources[..|sources| - 1], level) + SourceHeadings(sources[|sources| - 1], level)
  }

  lemma RowsAreLines(attrs: seq<Attribute>)
    ensures AllLines(AttributeRows(attrs))
  {
  }

  lemma ObjectOutline(o: DataObject, level: nat)
    ensures Outline(ObjectChunks(o, level)) == [(level + 1, Interpolated(o.name))]
  {
    var body := TableHead + AttributeRows(Items(o.attributes)) + [Line("")];
    RowsAreLines(Items(o.attributes));
    assert AllLines(body);
    TitledOutline(level + 1, Interpolated(o.name), body);
  }

  lemma ObjectHeadingsSnoc(objs: seq<DataObject>, level: nat)
    requires |objs| > 0
    ensures ObjectHeadings(objs, level)
      == ObjectHeadings(objs[..|objs| - 1], level) + [(level + 1, Interpolated(objs[|objs| - 1].name))]
  {
    var k := |objs| - 1;
    assert forall i :: 0 <= i < k ==> ObjectHeadings(objs, level)[i] == ObjectHeadings(objs[..k], level)[i];
  }

  lemma {:induction false} ObjectsOutline(objs: seq<DataObject>, level: nat)
    ensures Outline(ObjectsChunks(objs, level)) == ObjectHeadings(objs, level)
    decreases |objs|
  {
    if |objs| > 0 {
      var k := |objs| - 1;
      ObjectsOutline(objs[..k], level);
      OutlineConcat(ObjectsChunks(objs[..k], level), ObjectChunks(objs[k], level));
      ObjectOutline(objs[k], level);
      ObjectHeadingsSnoc(objs, level);
    }
  }

  lemma OverviewOutline(ds: DataSource, level: nat)
    ensures Outline(SourceOverview(ds, level))
      == [(level, "Data Source: " + Interpolated(ds.name)), (level + 1, "Description"), (level + 1, "Data flow")]
  {
    var title := [Heading(level, "Data Source: " + Interpolated(ds.name))];
    var desc := [Line(Shown(ds.description)), Line("")];
    var flow := [Line("<Mermaid chart={`"), Line(Shown(ds.flowChart)), Line("`}/>"), Line("")];
    HeadingOutline(level, "Data Source: " + Interpolated(ds.name));
    OutlineConcat(title, Titled(level + 1, "Description", desc));
    OutlineConcat(title + Titled(level + 1, "Description", desc), Titled(level + 1, "Data flow", flow));
    TitledOutline(level + 1, "Description", desc);
    TitledOutline(level + 1, "Data flow", flow);
  }

  lemma PolicyOutline(ds: DataSource, level: nat)
    ensures Outline(SourcePolicy(ds, level))
      == [(level + 1, "Permitted use"), (level + 1, "Retention"), (level + 1, "Data attributes")]
  {
    var use := [Line(Shown(ds.permittedUse)), Line("")];
    var keep := [Line(Shown(ds.retention)), Line("")];
    var attrs := [Heading(level + 1, "Data attributes")];
    HeadingOutline(level + 1, "Data attributes");
    OutlineConcat(Titled(level + 1, "Permitted use", use), Titled(level + 1, "Retention", keep));
    OutlineConcat(Titled(level + 1, "Permitted use", use) + Titled(level + 1, "Retention", keep), attrs);
    TitledOutline(level + 1, "Permitted use", use);
    TitledOutline(level + 1, "Retention", keep);
  }

  /** The data-source heading levels of lines 185-211. */
  lemma SourceOutline(ds: DataSource, level: nat)
    ensures Outline(SourceChunks(ds, level)) == SourceHeadings(ds, level)
  {
    OutlineConcat(SourceOverview(ds, level), SourcePolicy(ds, level));
    OutlineConcat(SourceOverview(ds, level) + SourcePolicy(ds, level), ObjectsChunks(Items(ds.data), level + 1));
    OverviewOutline(ds, level);
    PolicyOutline(ds, level);
    ObjectsOutline(Items(ds.data), level + 1);
  }

  lemma {:induction false} SourcesOutline(sources: seq<DataSource>, level: nat)
    ensures Outline(SourcesChunks(sources, level)) == SourcesHeadings(sources, level)
    decreases |sources|
  {
    if |sources| > 0 {
      var k := |sources| - 1;
      SourcesOutline(sources[..k], level);
      OutlineConcat(SourcesChunks(sources[..k], level), SourceChunks(sources[k], level));
      SourceOutline(sources[k], level);
    }
  }

  /** Lines 150-152: a lone data source is titled at level 2. */
  lemma LoneSourceOutline(sources: seq<DataSource>)
    requires |sources| == 1
    ensures Outline(SourcesSection(sources)) == SourceHeadings(sources[0], 2)
  {
    SourceOutline(sources[0], 2);
  }

  /** Lines 154-158: several data sources sit under a level-2 "Data Sources" heading, each titled at level 3. */
  lemma SourceListOutline(sources: seq<DataSource>)
    requires |sources| > 1
    ensures Outline(SourcesSection(sources)) == [(2, "Data Sources")] + SourcesHeadings(sources, 3)
  {
    assert SourcesSection(sources) == [Heading(2, "Data Sources")] + SourcesChunks(sources, 3);
    OutlineConcat([Heading(2, "Data Sources")], SourcesChunks(sources, 3));
    HeadingOutline(2, "Data Sources");
    SourcesOutline(sources, 3);
  }

  lemma {:induction false} ObjectsDeepen(objs: seq<DataObject>, level: nat)
    ensures Deepen(ObjectsChunks(objs, level)) == ObjectsChunks(objs, level + 1)
    decreases |objs|
  {
    if |objs| > 0 {
      var k := |objs| - 1;
      ObjectsDeepen(objs[..k], level);
      DeepenConcat(ObjectsChunks(objs[..k], level), ObjectChunks(objs[k], level));
      ObjectDeepen(objs[k], level);
    }
  }

  /** An object rendered one level deeper has its heading one level deeper and the same table. */
  lemma ObjectDeepen(o: DataObject, level: nat)
    ensures Deepen(ObjectChunks(o, level)) == ObjectChunks(o, level + 1)
  {
    var body := TableHead + AttributeRows(Items(o.attributes)) + [Line("")];
    RowsAreLines(Items(o.attributes));
    assert AllLines(body);
    DeepenTitled(level + 1, Interpolated(o.name), body);
  }

  lemma OverviewDeepen(ds: DataSource, level: nat)
    ensures Deepen(SourceOverview(ds, level)) == SourceOverview(ds, level + 1)
  {
    var title := [Heading(level, "Data Source: " + Interpolated(ds.name))];
    var desc := [Line(Shown(ds.description)), Line("")];
    var flow := [Line("<Mermaid chart={`"), Line(Shown(ds.flowChart)), Line("`}/>"), Line("")];
    DeepenConcat(title, Titled(level + 1, "Description", desc));
    DeepenConcat(title + Titled(level + 1, "Description", desc), Titled(level + 1, "Data flow", flow));
    DeepenTitled(level + 1, "Description", desc);
    DeepenTitled(level + 1, "Data flow", flow);
  }

  lemma PolicyDeepen(ds: DataSource, level: nat)
    ensures Deepen(SourcePolicy(ds, level)) == SourcePolicy(ds, level + 1)
  {
    var use := [Line(Shown(ds.permittedUse)), Line("")];
    var keep := [Line(Shown(ds.retention)), Line("")];
    var attrs := [Heading(level + 1, "Data attributes")];
    DeepenConcat(Titled(level + 1, "Permitted use", use), Titled(level + 1, "Retention", keep));
    DeepenConcat(Titled(level + 1, "Permitted use", use) + Titled(level + 1, "Retention", keep), attrs);
    DeepenTitled(level + 1, "Permitted use", use);
    DeepenTitled(level + 1, "Retention", keep);
  }

  /**
   * A data source written among several is the lone-source text with every
   * heading one level deeper; nothing else differs.
   */
  lemma SourceDeepen(ds: DataSource, level: nat)
    ensures Deepen(SourceChunks(ds, level)) == SourceChunks(ds, level + 1)
  {
    DeepenConcat(SourceOverview(ds, level), SourcePolicy(ds, level));
    DeepenConcat(SourceOverview(ds, level) + SourcePolicy(ds, level), ObjectsChunks(Items(ds.data), level + 1));
    OverviewDeepen(ds, level);
    PolicyDeepen(ds, level);
    ObjectsDeepen(Items(ds.data), level + 1);
  }

  lemma HeadOutline(uc: UseCase)
    ensures Outline(Preamble(uc) + AuthorAndBusinessCase(uc))
      == [(2, "Business Case"), (3, "Description"), (3, "Benefits to Our Customers")]
  {
    var author := [Line("Author: " + Interpolated(uc.author) + " (" + Interpolated(uc.email) + ")"), Line("")];
    var business := [Heading(2, "Business Case")];
    var desc := [Line(Shown(uc.businessCase.description)), Line("")];
    var benefits := [Line(Shown(uc.businessCase.customerBenefits)), Line("")];
    OutlineOfLines(Preamble(uc));
    OutlineOfLines(author);
    HeadingOutline(2, "Business Case");
    OutlineConcat(author, business);
    OutlineConcat(author + business, Titled(3, "Description", desc));
    OutlineConcat(author + business + Titled(3, "Description", desc), Titled(3, "Benefits to Our Customers", benefits));
    TitledOutline(3, "Description", desc);
    TitledOutline(3, "Benefits to Our Customers", benefits);
    OutlineConcat(Preamble(uc), AuthorAndBusinessCase(uc));
  }

  lemma DescendantsOutline(uc: UseCase, children: seq<(Id, string)>)
    ensures Outline(DescendantsSection(uc, children))
      == if |Items(uc.subUseCases)| > 0 then [(3, "Descendant use-cases")] else []
  {
    if |Items(uc.subUseCases)| > 0 {
      TitledOutline(3, "Descendant use-cases", ChildLinks(children));
    }
  }

  /**
   * A page's headings: the business case (level 2, two level-3 parts), the
   * data-source part, and a level-3 "Descendant use-cases" heading exactly
   * when the document lists sub-use-cases.
   */
  lemma PageOutline(uc: UseCase, children: seq<(Id, string)>)
    ensures Outline(UseCasePage(uc, children))
      == [(2, "Business Case"), (3, "Description"), (3, "Benefits to Our Customers")]
         + Outline(SourcesSection(Items(uc.dataSources)))
         + (if |Items(uc.subUseCases)| > 0 then [(3, "Descendant use-cases")] else [])
  {
    var head := Preamble(uc) + AuthorAndBusinessCase(uc);
    var sources := SourcesSection(Items(uc.dataSources));
    OutlineConcat(head, sources);
    OutlineConcat(head + sources, DescendantsSection(uc, children));
    HeadOutline(uc);
    DescendantsOutline(uc, children);
  }

  // ---------------------------------------------------------------------
  // The renderers, as the build runs them against the page's stream.
  // ---------------------------------------------------------------------

  method ProcessAttribute(a: Attribute, objName: string, sourceName: string, out: PageWriter) returns (r: Outcome<Error>)
    modifies out
    ensures r == CheckAttribute(sourceName, objName, a)
    ensures r.Pass? ==> out.chunks == old(out.chunks) + [Line(AttributeRow(a))]
    ensures r.Fail? ==> out.chunks == old(out.chunks)
  {
    if !Truthy(a.name) {
      return Fail(MissingAttributeName(sourceName, objName));
    }
    if !Truthy(a.description) {
      return Fail(MissingAttributeDescription(sourceName, objName, a.name.value));
    }
    out.PrintLn(AttributeRow(a));
    return Pass;
  }

  /** The `forEach` over an object's attributes (line 215). */
  method ProcessAttributes(attrs: seq<Attribute>, objName: string, sourceName: string, out: PageWriter)
    returns (r: Outcome<Error>)
    modifies out
    ensures r == FirstFailure(attrs, AttributeCheck(sourceName, objName))
    ensures r.Pass? ==> out.chunks == old(out.chunks) + AttributeRows(attrs)
  {
    ghost var check := AttributeCheck(sourceName, objName);
    for i := 0 to |attrs|
      invariant FirstFailure(attrs[..i], check).Pass?
      invariant out.chunks == old(out.chunks) + AttributeRows(attrs[..i])
    {
      var res := ProcessAttribute(attrs[i], objName, sourceName, out);
      FirstFailureStep(attrs, i, check);
      if res.Fail? {
        FirstFailureSticks(attrs, i + 1, check);
        return res;
      }
      assert attrs[..i + 1][..i] == attrs[..i];
    }
    assert attrs[..|attrs|] == attrs;
    return Pass;
  }

  method ProcessObject(o: DataObject, sourceName: string, out: PageWriter, level: nat) returns (r: Outcome<Error>)
    modifies out
    ensures r == CheckObject(sourceName, o)
    ensures r.Pass? ==> out.chunks == old(out.chunks) + ObjectChunks(o, level)
  {
    if !Truthy(o.name) {
      return Fail(MissingObjectName(sourceName));
    }
    var attrs := Items(o.attributes);
    if |attrs| == 0 {
      return Fail(MissingObjectAttributes(sourceName, o.name.value));
    }
    out.Header(level + 1, o.name.value);
    WriteTableHead(out);
    r := ProcessAttributes(attrs, o.name.value, sourceName, out);
    if r.Pass? {
      out.PrintLn("");
      AppendFour(old(out.chunks), [Heading(level + 1, o.name.value)], TableHead, AttributeRows(attrs), [Line("")]);
    }
  }

  /** The two lines that open an object's table (lines 213-214). */
  method WriteTableHead(out: PageWriter)
    modifies out
    ensures out.chunks == old(out.chunks) + TableHead
  {
    out.PrintLn("| Name | Description |");
    out.PrintLn("| ---- | ----------- |");
    AppendTwice(old(out.chunks), [Line("| Name | Description |")], [Line("| ---- | ----------- |")]);
  }

  /** The `forEach` over a data source's objects (line 204). */
  method ProcessObjects(objs: seq<DataObject>, sourceName: string, out: PageWriter, level: nat)
    returns (r: Outcome<Error>)
    modifies out
    ensures r == FirstFailure(objs, ObjectCheck(sourceName))
    ensures r.Pass? ==> out.chunks == old(out.chunks) + ObjectsChunks(objs, level)
  {
    ghost var check := ObjectCheck(sourceName);
    for i := 0 to |objs|
      invariant FirstFailure(objs[..i], check).Pass?
      invariant out.chunks == old(out.chunks) + ObjectsChunks(objs[..i], level)
    {
      var res := ProcessObject(objs[i], sourceName, out, level);
      FirstFailureStep(objs, i, check);
      if res.Fail? {
        FirstFailureSticks(objs, i + 1, check);
        return res;
      }
      assert objs[..i + 1][..i] == objs[..i];
      AppendTwice(old(out.chunks), ObjectsChunks(objs[..i], level), ObjectChunks(objs[i], level));
    }
    assert objs[..|objs|] == objs;
    return Pass;
  }

  method ProcessDataSource(ds: DataSource, out: PageWriter, level: nat) returns (r: Outcome<Error>)
    modifies out
    ensures r == CheckSource(ds)
    ensures r.Pass? ==> out.chunks == old(out.chunks) + SourceChunks(ds, level)
  {
    if !Truthy(ds.name) {
      return Fail(MissingSourceName);
    }
    var name := ds.name.value;
    if !Truthy(ds.description) {
      return Fail(MissingSourceField(name, Description));
    }
    if !Truthy(ds.flowChart) {
      return Fail(MissingSourceField(name, FlowChart));
    }
    if !Truthy(ds.permittedUse) {
      return Fail(MissingSourceField(name, PermittedUse));
    }
    if !Truthy(ds.retention) {
      return Fail(MissingSourceField(name, Retention));
    }
    if |Items(ds.data)| == 0 {
      return Fail(MissingSourceData(name));
    }
    ghost var before := out.chunks;
    WriteSourceOverview(ds, out, level);
    WriteSourcePolicy(ds, out, level);
    r := ProcessObjects(Items(ds.data), name, out, level + 1);
    AppendTwice(before, SourceOverview(ds, level), SourcePolicy(ds, level));
    AppendTwice(before, SourceOverview(ds, level) + SourcePolicy(ds, level), ObjectsChunks(Items(ds.data), level + 1));
  }

  method WriteSourceOverview(ds: DataSource, out: PageWriter, level: nat)
    requires SourceOwnFieldsPresent(ds)
    modifies out
    ensures out.chunks == old(out.chunks) + SourceOverview(ds, level)
  {
    out.Header(level, "Data Source: " + ds.name.value);
    out.Header(level + 1, "Description");
    out.PrintLn(ds.description.value);
    out.PrintLn("");
    out.Header(level + 1, "Data flow");
    out.PrintLn("<Mermaid chart={`");
    out.PrintLn(ds.flowChart.value);
    out.PrintLn("`}/>");
    out.PrintLn("");
  }

  method WriteSourcePolicy(ds: DataSource, out: PageWriter, level: nat)
    requires SourceOwnFieldsPresent(ds)
    modifies out
    ensures out.chunks == old(out.chunks) + SourcePolicy(ds, level)
  {
    out.Header(level + 1, "Permitted use");
    out.PrintLn(ds.permittedUse.value);
    out.PrintLn("");
    out.Header(level + 1, "Retention");
    out.PrintLn(ds.retention.value);
    out.PrintLn("");
    out.Header(level + 1, "Data attributes");
  }

  /** The `for` loop over several data sources (lines 156-158). */
  method ProcessSourceList(sources: seq<DataSource>, out: PageWriter, level: nat) returns (r: Outcome<Error>)
    modifies out
    ensures r == FirstFailure(sources, CheckSource)
    ensures r.Pass? ==> out.chunks == old(out.chunks) + SourcesChunks(sources, level)
  {
    for i := 0 to |sources|
      invariant FirstFailure(sources[..i], CheckSource).Pass?
      invariant out.chunks == old(out.chunks) + SourcesChunks(sources[..i], level)
    {
      var res := ProcessDataSource(sources[i], out, level);
      FirstFailureStep(sources, i, CheckSource);
      if res.Fail? {
        FirstFailureSticks(sources, i + 1, CheckSource);
        return res;
      }
      assert sources[..i + 1][..i] == sources[..i];
      AppendTwice(old(out.chunks), SourcesChunks(sources[..i], level), SourceChunks(sources[i], level));
    }
    assert sources[..|sources|] == sources;
    return Pass;
  }

  /** `processUseCase`'s data-source part (lines 150-160). */
  method ProcessDataSources(sources: seq<DataSource>, out: PageWriter) returns (r: Outcome<Error>)
    modifies out
    ensures r == FirstFailure(sources, CheckSource)
    ensures r.Pass? ==> out.chunks == old(out.chunks) + SourcesSection(sources)
  {
    if |sources| == 1 {
      r := ProcessDataSource(sources[0], out, 2);
      assert sources[..0] == [];
      FirstFailureStep(sources, 0, CheckSource);
      assert sources[..1] == sources;
    } else if |sources| > 1 {
      ghost var before := out.chunks;
      out.Header(2, "Data Sources");
      r := ProcessSourceList(sources, out, 3);
      AppendTwice(before, [Heading(2, "Data Sources")], SourcesChunks(sources, 3));
    } else {
      r := Pass;
    }
  }

  /** Lines 129-135. */
  method WritePreamble(uc: UseCase, out: PageWriter)
    modifies out
    ensures out.chunks == old(out.chunks) + Preamble(uc)
  {
    out.PrintLn("---");
    out.PrintLn("title: " + Interpolated(uc.name));
    out.PrintLn("---");
    out.PrintLn("");
    out.PrintLn("import Mermaid from '@theme/Mermaid';");
    out.PrintLn("");
  }

  /** Lines 139-148. */
  method WriteAuthorAndBusinessCase(uc: UseCase, out: PageWriter)
    modifies out
    ensures out.chunks == old(out.chunks) + AuthorAndBusinessCase(uc)
  {
    out.PrintLn("Author: " + Interpolated(uc.author) + " (" + Interpolated(uc.email) + ")");
    out.PrintLn("");
    out.Header(2, "Business Case");
    out.Header(3, "Description");
    out.PrintLn(Shown(uc.businessCase.description));
    out.PrintLn("");
    out.Header(3, "Benefits to Our Customers");
    out.PrintLn(Shown(uc.businessCase.customerBenefits));
    out.PrintLn("");
  }

  /**
   * `processUseCase`'s own part of a page, up to the sub-use-cases (lines
   * 129-160), for a document with a name: the checks of the author, the
   * email and the data sources, in that order, against what is written.
   */
  method ProcessDocument(uc: UseCase, out: PageWriter) returns (r: Outcome<Error>)
    requires Truthy(uc.name)
    modifies out
    ensures r == CheckUseCase(uc)
    ensures r.Pass? ==> out.chunks == old(out.chunks) + Preamble(uc) + AuthorAndBusinessCase(uc) + SourcesSection(Items(uc.dataSources))
  {
    WritePreamble(uc, out);
    if !Truthy(uc.author) {
      return Fail(MissingAuthor);
    }
    if !Truthy(uc.email) {
      return Fail(MissingEmail);
    }
    WriteAuthorAndBusinessCase(uc, out);
    r := ProcessDataSources(Items(uc.dataSources), out);
  }
}
