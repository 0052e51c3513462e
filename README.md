# dataplan build, modelled in Dafny

A model of the dataplan build tool (`dataplan-build.js`). The tool starts from one root use-case document (YAML). It walks every document reachable through `subUseCases` and renders:

- one Markdown page per document (front matter, author, business case, data sources with their objects and attribute tables, and links to the descendant use-cases);
- an index page with a Mermaid flowchart of the use-case graph.

While it walks, it fills a shared index `{id: {name, author, links}}`, keyed by `stringHash(path)`. An id that is already in the index is not visited again. Each document is entered into the index before its sub-use-cases are followed, so cycles end and diamonds are visited once. Every required field is checked with JavaScript truthiness, and a failed check aborts the run with a message that names the enclosing data source, object and attribute.

Modules, in dependency order:

- `Wrappers` (wrappers.dfy): `Option`, `Outcome` (pass or fail with an error) and `Result`.
- `Documents` (documents.dfy): the decoded records (`UseCase`, `DataSource`, `DataObject`, `Attribute`, `BusinessCase`), the file-system view `Node`, and JavaScript truthiness (`Truthy`). It also holds what `println(field)` writes (`Shown`) and what `${field}` gives (`Interpolated`).
- `Validation` (validation.dfy): the `Error` values and their messages. Each renderer's checks are a pure function; `FirstFailure` models a loop whose body throws. `ObjectValid`, `SourceValid` and `UseCaseValid` are the "valid" predicates the checks are proved against.
- `Markdown` (markdown.dfy): a page as a sequence of chunks, `Line(t)` for `println(t)` and `Heading(l, t)` for `header(l, t)`. `PageText` gives the exact characters of a page and `Outline` its headings. The stream itself is the `PageWriter` class.
- `Pages` (pages.dfy): one method per renderer of a document page, each proved against the function that gives what it writes. Beside them are lemmas about heading levels, table shape and outline.
- `Graph` (graph.dfy): the index, the index page, and lemmas counting its node and edge lines.
- `Build` (walker.dfy): the `Walker` class, which threads the index and the written pages through `ProcessFile` and `ProcessUseCase`. `Run` is the `run`/`process` driver.

`stringHash`, `path.resolve(path.join(root, sub))` and `path.parse(file).dir` are uninterpreted function parameters (`hash`, `resolve`, `parent`). The file system is a finite map from path to `Node`. Beside the per-call contracts, the walker keeps one whole-site invariant: every page written so far renders a stored document that passed its checks, whose path hashes to the page's id, and whose entry links to the ids of its sub-use-cases; and every entry is the id of a path reachable from the root document through resolved sub-use-case paths (a *chain*). Termination of the walk is proved: every registration moves one id of a stored document into the index, so `Pending()` (the ids of stored documents not yet indexed) shrinks.

## Model

| member | source | states |
|---|---|---|
| Documents.Truthy | dataplan-build.js:177-221 | a field is truthy, as the `if(!x)` checks test it, exactly when it is present and not the empty string |
| Documents.Shown | dataplan-build.js:120-123 | `println(field)` writes the field's string when it is truthy and nothing otherwise |
| Documents.Interpolated | dataplan-build.js:130 | a present field reads as its string inside a template literal |
| Markdown.Hashes | dataplan-build.js:126 | `"#".repeat(n)` has length n and consists only of `#` |
| Markdown.PageWriter.PrintLn | dataplan-build.js:120-123 | `println(s)` appends one line chunk and changes nothing else |
| Markdown.LineText | dataplan-build.js:120-123 | a line chunk adds `s` and a newline to the page's text, only the newline when `s` is empty |
| Markdown.PageWriter.Header | dataplan-build.js:125-127 | `header(l, s)` appends one heading chunk and changes nothing else |
| Markdown.HeadingText | dataplan-build.js:125-127 | a heading chunk adds l hash marks, a space, `s` and two newlines to the page's text |
| Markdown.ChunkText | dataplan-build.js:120-127 | the characters one `println` or `header` call writes; `LineText` and `HeadingText` state them |
| Markdown.PageText | dataplan-build.js:120-127 | the characters of a page file, the chunks' texts in write order; `PageTextConcat` states it splits over concatenation |
| Markdown.PageTextConcat | dataplan-build.js:119-127 | the text of two runs of writes is the concatenation of their texts |
| Validation.Message | dataplan-build.js:177-221 | exactly the file-access and decoding errors have no message of the build's own; every error with a context has a message that starts with `[` |
| Validation.MessagePrefix | dataplan-build.js:179-221 | a message with context begins with `[`, the context's names joined by the error's separator (`.` for a missing object attribute list, `/` for the attribute errors), then `] ` |
| Validation.MessageNames | dataplan-build.js:179-221 | every name in an error's context (data source, object, attribute) occurs in its message |
| Validation.JoinedPair | dataplan-build.js:209-220 | two bracketed names read `source`, separator, `object` |
| Validation.JoinedTriple | dataplan-build.js:221 | three bracketed names read `source/object/attribute` |
| Validation.Tagged | dataplan-build.js:179-221 | the `[names] text` template of the bracketed messages: `[`, the joined names, `] `, and the message text at the end |
| Validation.FieldWordsDistinct | dataplan-build.js:179-182 | the four missing-field messages (`description`, `flowChart`, `permitted use`, `retention`, as `FieldWords` words them) name four different fields |
| Validation.TaggedNames | dataplan-build.js:179-221 | each name of a bracket tag occurs in the tagged message |
| Validation.JoinedOccurs | dataplan-build.js:209-221 | each name occurs in the names joined by a separator |
| Validation.FirstFailure | dataplan-build.js:204-215 | a loop whose body throws, as a function; what it yields is stated by `FirstFailureSpec` and `FirstFailureSticks` |
| Validation.CheckObject | dataplan-build.js:208-215 | an object's checks, its attributes' after its own; proved against `ObjectValid` by `ObjectCheckValid` and `ObjectBlame` |
| Validation.CheckSource | dataplan-build.js:177-204 | a data source's checks in source order, then its objects'; proved against `SourceValid` by `SourceCheckValid` and `SourceBlame` |
| Validation.CheckUseCase | dataplan-build.js:113-158 | a document's checks: name, author, email, then its data sources; proved against `UseCaseValid` by `UseCaseCheckValid` and `UseCaseCheckOrder` |
| Validation.CheckAttribute | dataplan-build.js:220-221 | an attribute fails exactly when its name or description is falsy; the name is checked first; the error names the data source and object, and the attribute once it has a name |
| Validation.FirstFailureSpec | dataplan-build.js:204 | a loop whose body throws passes exactly when every element passes; a failure is that of the first failing element, after passing ones |
| Validation.FirstFailureSticks | dataplan-build.js:215 | once a prefix of the loop has failed, the whole loop fails with that error |
| Validation.ObjectCheckValid | dataplan-build.js:208-209 | an object's checks, its attributes' included, pass exactly when it has a name, a non-empty attribute list and only valid attributes |
| Validation.SourceCheckValid | dataplan-build.js:177-183 | a data source's checks pass exactly when its name, description, flowChart, permittedUse and retention are truthy, its data is non-empty and every object is valid |
| Validation.UseCaseCheckValid | dataplan-build.js:137-138 | a named document's checks pass exactly when author and email are truthy and every data source is valid |
| Validation.ObjectBlame | dataplan-build.js:208-209 | a failing object names its data source, and the object once it has a name; an attribute-level failure is that of its first invalid attribute |
| Validation.SourceBlame | dataplan-build.js:177-183 | a missing source name is reported without context; any other failure names the source; a missing field is the first falsy one in check order; a deeper failure means the source's own checks all passed |
| Validation.UseCaseCheckOrder | dataplan-build.js:113-138 | the document's checks run name, author, email, then the data sources in order, the first failing source deciding the error |
| Pages.TableHeadText | dataplan-build.js:213-214 | `TableHead` writes exactly the two lines `\| Name \| Description \|` and `\| ---- \| ----------- \|` |
| Pages.AttributeRow | dataplan-build.js:223 | one table row `\| name \| description \|`; `AttributeRows` states the rows of a table |
| Pages.ObjectsChunks | dataplan-build.js:204 | the objects' parts one after another; `ObjectsOutline` states their headings |
| Pages.SourceOverview | dataplan-build.js:185-194 | a source's heading, description and data-flow block; `OverviewOutline` states its headings |
| Pages.SourcePolicy | dataplan-build.js:195-202 | permitted use, retention and the "Data attributes" heading; `PolicyOutline` states its headings |
| Pages.SourcesChunks | dataplan-build.js:156-158 | several sources one after another; `SourcesOutline` states their headings |
| Pages.ChildLink | dataplan-build.js:169 | the link line `- [name](../id/index.html)`; `ChildLinks` states one per child |
| Pages.ObjectChunks | dataplan-build.js:211-216 | what an object's part writes; its shape, headings and deepening are stated by `ObjectTable`, `ObjectOutline` and `ObjectDeepen` |
| Pages.SourceChunks | dataplan-build.js:185-204 | what a data source's part writes; its headings and deepening are stated by `SourceOutline` and `SourceDeepen` |
| Pages.SourcesSection | dataplan-build.js:150-160 | the data-source part of a page; its headings are stated by `LoneSourceOutline` and `SourceListOutline` |
| Pages.Preamble | dataplan-build.js:129-135 | the front matter; `HeadOutline` states it has no heading |
| Pages.AuthorAndBusinessCase | dataplan-build.js:139-148 | the author line and business case; `HeadOutline` states its heading structure |
| Pages.DescendantsSection | dataplan-build.js:162-171 | the descendants part; `DescendantsOutline` and `ChildLinks` state it |
| Pages.UseCasePage | dataplan-build.js:129-171 | a whole document page; `PageOutline` states its headings, and `Build.Walker.FinishPage` proves the written page equals it |
| Pages.AttributeRows | dataplan-build.js:215 | one row per attribute, in order, each `\| name \| description \|` |
| Pages.TableBody | dataplan-build.js:213-216 | an object's table is the two head lines, one row per attribute in order, then a blank line |
| Pages.ObjectTable | dataplan-build.js:211-216 | an object's part has length attributes + 4: its heading one level below the caller's, the head lines, the rows in order, a blank line |
| Pages.ObjectOutline | dataplan-build.js:211 | an object contributes exactly one heading, its name at base + 1 |
| Pages.ObjectsOutline | dataplan-build.js:204 | the objects of a source contribute their names in order, one heading each |
| Pages.OverviewOutline | dataplan-build.js:185-194 | a source's overview has the headings "Data Source: name" at the base level, then "Description" and "Data flow" at base + 1 |
| Pages.PolicyOutline | dataplan-build.js:195-202 | then "Permitted use", "Retention" and "Data attributes" at base + 1 |
| Pages.SourceOutline | dataplan-build.js:185-204 | a source's headings are these six followed by its objects' names at base + 2 |
| Pages.ObjectDeepen | dataplan-build.js:211-216 | an object rendered one level deeper differs only in its heading's level |
| Pages.SourceDeepen | dataplan-build.js:152-157 | rendering a source one level deeper adds one to every heading level and changes nothing else |
| Pages.SourcesOutline | dataplan-build.js:156-158 | several sources contribute their headings in order |
| Pages.LoneSourceOutline | dataplan-build.js:151-152 | exactly one data source is rendered inline at level 2 |
| Pages.SourceListOutline | dataplan-build.js:154-158 | two or more data sources sit under a level-2 "Data Sources" heading, each at level 3 |
| Pages.HeadOutline | dataplan-build.js:129-148 | the front matter and author line carry no heading; the business case is a level-2 heading with two level-3 parts |
| Pages.DescendantsOutline | dataplan-build.js:162-163 | the level-3 "Descendant use-cases" heading appears exactly when the document lists sub-use-cases |
| Pages.PageOutline | dataplan-build.js:129-171 | a document page's headings, in order: the business case, the data-source part, and the descendants heading when there are sub-use-cases |
| Pages.ChildLinks | dataplan-build.js:164-170 | one link line `- [name](../id/index.html)` per child, in order |
| Pages.ProcessAttribute | dataplan-build.js:219-224 | checks the attribute as `CheckAttribute` does; on success writes its row, on failure writes nothing |
| Pages.ProcessAttributes | dataplan-build.js:215 | the `forEach` over attributes stops at the first failure; on success it wrote every row in order |
| Pages.ProcessObject | dataplan-build.js:207-217 | checks the object as `CheckObject` does; on success writes the object's heading and table |
| Pages.WriteTableHead | dataplan-build.js:213-214 | writes the two head lines of a table |
| Pages.ProcessObjects | dataplan-build.js:204 | the `forEach` over objects stops at the first failure; on success it wrote each object's part in order |
| Pages.ProcessDataSource | dataplan-build.js:176-205 | checks the source as `CheckSource` does; on success writes its overview, policy and objects |
| Pages.WriteSourceOverview | dataplan-build.js:185-194 | writes the source heading, description and data-flow block |
| Pages.WriteSourcePolicy | dataplan-build.js:195-202 | writes permitted use, retention and the "Data attributes" heading |
| Pages.ProcessSourceList | dataplan-build.js:156-158 | the `for` over several sources stops at the first failure; on success it wrote each source in order |
| Pages.ProcessDataSources | dataplan-build.js:150-160 | nothing for no sources, one source at level 2, several under "Data Sources" at level 3; the outcome is the first failing source's |
| Pages.WritePreamble | dataplan-build.js:129-135 | writes the front matter with the title and the Mermaid import |
| Pages.WriteAuthorAndBusinessCase | dataplan-build.js:139-148 | writes the author line and the business case |
| Pages.ProcessDocument | dataplan-build.js:129-160 | the document's checks in order, as `CheckUseCase`; on success the page so far is the preamble, author, business case and data sources |
| Graph.NodeLines | dataplan-build.js:82-84 | one node line per listed key |
| Graph.EdgesFrom | dataplan-build.js:86-88 | one edge line per link of one entry |
| Graph.EdgeCount | dataplan-build.js:85-89 | for any duplicate-free listing of all keys, the number of edge lines is the total number of links over all entries |
| Graph.EnumerationInit | dataplan-build.js:82 | a listing without its last key lists the index without that key |
| Graph.NodeCount | dataplan-build.js:82-84 | for such a listing there is one node line per index entry |
| Graph.NodesComplete | dataplan-build.js:82-84 | every index entry has its node line |
| Graph.EdgesSound | dataplan-build.js:85-89 | every edge line is `key --> link` for a link of a listed entry |
| Graph.EdgesComplete | dataplan-build.js:85-89 | every link of every listed entry has its edge line |
| Graph.IndexHead | dataplan-build.js:72-81 | the front matter, the diagram sentence and the flowchart opening; `IndexTitle` states its named lines |
| Graph.NodeLine | dataplan-build.js:83 | one flowchart node with its link and the entry's name; `NodesComplete` and `NodeCount` state the node lines |
| Graph.EdgeLine | dataplan-build.js:87 | one `key --> link` line; `EdgesSound` and `EdgesComplete` state the edge lines |
| Graph.EdgeLines | dataplan-build.js:85-89 | the edges of the listed entries, key by key; `EdgeCount` counts them |
| Graph.IndexPage | dataplan-build.js:72-91 | the index page; `IndexTitle`, `NodeCount`, `EdgeCount`, `NodesComplete`, `EdgesSound` and `EdgesComplete` state its lines |
| Graph.TotalLinks | dataplan-build.js:85-89 | the number of links over all entries; `EdgeCount` equates it with the number of edge lines |
| Graph.IndexTitle | dataplan-build.js:72-91 | the index page has 12 fixed lines besides the nodes and edges; its title line and its diagram sentence name the root entry |
| Graph.ChildRefs | dataplan-build.js:168 | one child reference per link, in link order |
| Graph.ChildRefsPairs | dataplan-build.js:168 | the j-th child reference is the j-th link and the name its index entry holds |
| Graph.DiagramSentence | dataplan-build.js:76 | the sentence built from `DiagramIntro` and `DiagramOutro` puts the root use case's name between double quotes |
| Graph.IndexTailText | dataplan-build.js:90-91 | `IndexTail` writes the flowchart's closing `` `}/> `` line and then an empty line |
| Graph.ChildRefsStable | dataplan-build.js:168-169 | a later index gives already-linked children the same names |
| Graph.Enumerate | dataplan-build.js:82 | `Object.entries` lists every key of the index exactly once |
| Graph.WriteIndexHead | dataplan-build.js:72-81 | writes the front matter, the sentence naming the root and the flowchart opening |
| Graph.WriteNodes | dataplan-build.js:82-84 | the loop writes the node lines in listing order |
| Graph.WriteEdgesFrom | dataplan-build.js:86-88 | the inner loop writes one entry's edges in link order |
| Graph.WriteEdges | dataplan-build.js:85-89 | the nested loops write every listed entry's edges, key by key |
| Graph.WriteIndexTail | dataplan-build.js:90-91 | writes the end of the flowchart block |
| Graph.ProcessIndex | dataplan-build.js:62-91 | the index page is the head, the node lines, the edge lines and the tail |
| Build.SubIds | dataplan-build.js:164-165 | the ids of a document's sub-use-cases are the hashes of their resolved paths, one per entry, in order |
| Build.PushKeepsClosed | dataplan-build.js:166 | pushing a link to an indexed id keeps every link pointing into the index |
| Build.ChildLinksPush | dataplan-build.js:166-169 | one more pushed link adds exactly one more link line |
| Build.ChildPaths | dataplan-build.js:164-165 | the paths a document's sub-use-cases resolve to, one per entry |
| Build.ChainChild | dataplan-build.js:162-165 | a chain of the walk extends by any resolved sub-use-case path of the document it ends at |
| Build.ChainEnds | dataplan-build.js:162-165 | the ends of the chains from the root document include the root and are closed under sub-use-cases |
| Build.Walker.constructor | dataplan-build.js:56 | the walk starts from an empty index and no pages; its reachable paths are exactly the ends of the chains from the root document |
| Build.Walker.ProcessFile | dataplan-build.js:98-110 | an id already in the index is returned with nothing read or changed; a missing path or a directory and an undecodable file are errors with nothing changed; otherwise the document is processed; existing entries and pages are never changed; every link points into the index; every entry is the id of a path reachable from the root document; with every reachable path a stored document passing its checks it succeeds, and a failure is the error of some reachable path |
| Build.Walker.Register | dataplan-build.js:117 | the entry {name, author, []} is added under a pending id, pages unchanged, so fewer ids are pending |
| Build.Walker.ProcessUseCase | dataplan-build.js:112-117 | a nameless document fails before the index is touched; any other is entered as {name, author, []} before anything else, and an author, email or data-source failure leaves just that entry; success means the links are the sub-use-case ids in order and the page is the document's rendering; with every reachable path a stored document passing its checks it succeeds, and a failure is the error of some reachable path |
| Build.Walker.WritePage | dataplan-build.js:119-173 | for a registered document: a failed check leaves index and pages unchanged; success writes its page and sets its links; with every reachable path a stored document passing its checks it succeeds, and a failure is the error of some reachable path |
| Build.Walker.FinishPage | dataplan-build.js:162-173 | after the document's own part, the descendants follow and the page kept under the document's id is the document's full rendering; with every reachable path a stored document passing its checks it succeeds, and a failure is the error of some reachable path |
| Build.Walker.KeepPage | dataplan-build.js:119-173 | the finished page is kept under the document's id, nothing else changes, and it is the rendering of the stored document with its linked children |
| Build.Walker.WriteDescendants | dataplan-build.js:162-171 | without sub-use-cases it succeeds and changes nothing; otherwise the "Descendant use-cases" heading and the loop; with every reachable path a stored document passing its checks it succeeds, and a failure is the error of some reachable path |
| Build.Walker.ProcessSubUseCases | dataplan-build.js:164-170 | after the loop the links are exactly the sub-use-case ids in declaration order, one link line was written per child, other entries and pages are as before; with every reachable path a stored document passing its checks it succeeds, and a failure is the error of some reachable path |
| Build.Walker.ResolveChild | dataplan-build.js:164-169 | one pass resolves and walks a child and returns its id, keeping the loop's invariant; with every reachable path a stored document passing its checks it succeeds, and a failure is the error of some reachable path |
| Build.Walker.AddLink | dataplan-build.js:166 | the push changes only that entry's links, which gain the child's id at the end; pages unchanged |
| Build.Walker.PushLink | dataplan-build.js:166-169 | `links.push(subId)` and the child's link line with its indexed name |
| Build.SoundStep | dataplan-build.js:117-169 | a step that keeps every written page and its entry and every name, and adds only pages that render a stored document, keeps every page a rendering of a stored document (the children's names on a page do not change as the walk goes on) |
| Build.Walk | dataplan-build.js:53-57 | for a root that is not a directory: an undecodable or invalid root fails with its error; on success the root has its entry with its name and sub-use-case links, links stay in the index, every entry has a page, the root's page is its rendering, every page renders a valid stored document whose path hashes to the page's id, and every entry is the id of a path reachable from the root; when every chain from the root ends at a stored document passing its checks the walk succeeds, and a failure is the error of some chain's end |
| Build.Blamed | dataplan-build.js:104-221 | the error the build raises for one path: file access, decoding, or the document's first failing check |
| Build.WalkerGood | dataplan-build.js:98-171 | when every chain from the root ends at a good document, every path the walker can reach is good |
| Build.WalkerBlamed | dataplan-build.js:98-171 | an error blamed on a reachable path is blamed on the end of a chain from the root |
| Build.WalkerWalked | dataplan-build.js:53-57 | a walker's final index and pages, with the root rendered and every entry paged, hold a finished walk |
| Build.CoverStep | dataplan-build.js:162-166 | a stored document with a sound page, whose id no other stored path shares, has an entry for each sub-use-case |
| Build.Covers | dataplan-build.js:98-166 | an index closed under sub-use-cases that holds the root's id holds the id of every chain's end |
| Build.WalkedClosed | dataplan-build.js:162-166 | when `stringHash` tells the stored paths apart, a finished walk is closed under sub-use-cases |
| Build.WalkedReach | dataplan-build.js:98-166 | when `stringHash` tells the stored paths apart, the finished index holds exactly the ids of the paths reachable from the root document |
| Build.WalkedGood | dataplan-build.js:98-171 | when `stringHash` tells all paths apart, a finished walk means every chain from the root ends at a stored document passing its checks, so with `Walk` the build succeeds exactly when that holds |
| Build.Run | dataplan-build.js:28-60 | a missing root is a file-access error, a directory is refused, an undecodable or invalid root fails with its error; on success the walk's outcome is as `Walk` states and the index page lists every entry of the index; when every chain from the root ends at a stored document passing its checks the run succeeds, and every other failure than a directory root is the error of some chain's end |

## Left out

- The command line (`commander`, the argument count check, `process.exit`, the `--prefix` and `--output` options) and the console output, including the summary line printed at the end of `processIndex`.
- File I/O: reading is a lookup in the store; writing is the chunks kept per id. The source leaves partially written files behind when it throws; the model keeps no page for a failed document.
- YAML decoding is a foreign library: a decoded file is a `UseCase`, a file that does not decode is `Unparsable`. Scalars other than strings, and a file that decodes to `null`, are not modelled.
- `stringHash`, `path.resolve`, `path.join` and `path.parse` are uninterpreted parameters; hash collisions are allowed, so deduplication is stated over ids, not paths.
- `businessCase` is a required field of the record: the code dereferences it without a check, and a missing one would crash with a type error rather than a build error.
- The order of `Object.entries` on the index (numeric keys ascend) is not modelled: the index page is proved for every duplicate-free listing of the keys, and `Graph.Enumerate` picks one.
- `async`/`await`: the walk is sequential and modelled as such.
- Build.Walker.ProcessUseCase: the index and pages after a failure in a descendant are constrained only by the frame (entries and pages that existed are unchanged, links stay in the index), not described exactly; the error returned is tied to a reachable path, not to the first failing one in walk order.
- `businessCase.description` and `customerBenefits` are never checked; an absent one prints an empty line (dataplan-build.js:144, 147), and the model does the same.
- Build.Walker.ProcessFile: the entries a call adds are bounded by reachability from the walk's root document, not from the call's own `file`.
- Build.WalkedReach: that every reachable id has an entry needs `stringHash` to tell the stored paths apart; with a collision the source skips the second path's sub-use-cases, and only the other direction holds.
