/**
 * The required-field checks the build performs while it renders a document,
 * each as a pure function that yields the first failure in the order the
 * build meets it.
 */
module Validation {
  import opened Wrappers
  import opened Documents

  datatype SourceField = Description | FlowChart | PermittedUse | Retention

  /** Every way the build aborts, with the names its message mentions. */
  datatype Error =
    | RootIsDirectory(path: Path)
    | FileAccess(path: Path)
    | ParseFailure(path: Path)
    | MissingUseCaseName
    | MissingAuthor
    | MissingEmail
    | MissingSourceName
    | MissingSourceField(source: string, field: SourceField)
    | MissingSourceData(source: string)
    | MissingObjectName(source: string)
    | MissingObjectAttributes(source: string, obj: string)
    | MissingAttributeName(source: string, obj: string)
    | MissingAttributeDescription(source: string, obj: string, attribute: string)
  {
    /** The names the message puts between brackets, enclosing data source first. */
    function Context(): seq<string>
    {
      match this
      case MissingSourceField(s, _) => [s]
      case MissingSourceData(s) => [s]
      case MissingObjectName(s) => [s]
      case MissingObjectAttributes(s, o) => [s, o]
      case MissingAttributeName(s, o) => [s, o]
      case MissingAttributeDescription(s, o, a) => [s, o, a]
      case _ => []
    }
  }

  /** How the messages of lines 179-182 name a missing data-source field. */
  function FieldWords(f: SourceField): string
  {
    match f
    case Description => "description"
    case FlowChart => "flowChart"
    case PermittedUse => "permitted use"
    case Retention => "retention"
  }

  /** The four messages name four different fields. */
  lemma FieldWordsDistinct(f: SourceField, g: SourceField)
    ensures FieldWords(f) == FieldWords(g) <==> f == g
  {
  }

  /**
   * The text of the error the build throws; None for the two errors whose
   * text comes from the file system or the YAML decoder.
   */
  function Message(e: Error): (m: Option<string>)
    ensures m.None? <==> e.FileAccess? || e.ParseFailure?
    ensures |e.Context()| > 0 ==> m.Some? && |m.value| > 0 && m.value[0] == '['
  {
    match e
    case RootIsDirectory(_) => Some("Use case file must not be a directory")
    case FileAccess(_) => None
    case ParseFailure(_) => None
    case MissingUseCaseName => Some("Missing use-case name")
    case MissingAuthor => Some("Missing author")
    case MissingEmail => Some("Missing email")
    case MissingSourceName => Some("Missing data source name")
    case MissingSourceField(s, f) => Some(Tagged([s], '.', "Missing data source " + FieldWords(f)))
    case MissingSourceData(s) => Some(Tagged([s], '.', "Missing data attributes in data source"))
    case MissingObjectName(s) => Some(Tagged([s], '.', "Missing object name"))
    case MissingObjectAttributes(s, o) => Some(Tagged([s, o], '.', "Missing object attributes"))
    case MissingAttributeName(s, o) => Some(Tagged([s, o], '/', "Missing attribute name"))
    case MissingAttributeDescription(s, o, a) => Some(Tagged([s, o, a], '/', "Missing attribute description"))
  }

  /** `[names] text`, the names joined by `sep`: `[source.object]` or `[source/object/attribute]`. */
  function Tagged(names: seq<string>, sep: char, text: string): (r: string)
    ensures |r| == |Joined(names, sep)| + 3 + |text|
    ensures r[0] == '[' && r[|Joined(names, sep)| + 1..|Joined(names, sep)| + 3] == "] "
    ensures r[|r| - |text|..] == text
  {
    "[" + Joined(names, sep) + "] " + text
  }

  /** `n` appears in `s` from position `i` on. */
  ghost predicate OccursAt(n: string, s: string, i: int)
  {
    0 <= i <= |s| - |n| && s[i..i + |n|] == n
  }

  /** `n` appears somewhere in `s`. */
  ghost predicate Occurs(n: string, s: string)
  {
    exists i :: OccursAt(n, s, i)
  }

  /** The names in order with `sep` between neighbours. */
  function Joined(names: seq<string>, sep: char): string
  {
    if |names| == 0 then ""
    else if |names| == 1 then names[0]
    else Joined(names[..|names| - 1], sep) + [sep] + names[|names| - 1]
  }

  /** The separator between the bracketed names: `/` for the attribute errors (lines 220-221), `.` otherwise (line 209). */
  function Separator(e: Error): char
  {
    if e.MissingAttributeName? || e.MissingAttributeDescription? then '/' else '.'
  }

  /**
   * A message with context opens with its names in brackets, joined by the
   * error's separator, then a space.
   */
  lemma MessagePrefix(e: Error)
    requires |e.Context()| > 0
    ensures var p := "[" + Joined(e.Context(), Separator(e)) + "] ";
      Message(e).Some? && |p| <= |Message(e).value| && Message(e).value[..|p|] == p
  {
    var p := "[" + Joined(e.Context(), Separator(e)) + "] ";
    var m := Message(e).value;
    assert m == p + m[|p|..];
  }

  /** Two bracketed names read `x`, `sep`, `y`. */
  lemma JoinedPair(x: string, y: string, sep: char)
    ensures Joined([x, y], sep) == x + [sep] + y
  {
    assert [x, y][..1] == [x];
  }

  /** Three bracketed names read `x`, `sep`, `y`, `sep`, `z`. */
  lemma JoinedTriple(x: string, y: string, z: string, sep: char)
    ensures Joined([x, y, z], sep) == x + [sep] + y + [sep] + z
  {
    assert [x, y, z][..2] == [x, y];
    JoinedPair(x, y, sep);
  }

  /** An occurrence in `s` is one in `s + t` and in `t + s`. */
  lemma OccursWithin(n: string, s: string, t: string)
    requires Occurs(n, s)
    ensures Occurs(n, s + t) && Occurs(n, t + s)
  {
    var i :| OccursAt(n, s, i);
    assert (s + t)[i..i + |n|] == n;
    assert OccursAt(n, s + t, i);
    assert (t + s)[|t| + i..|t| + i + |n|] == n;
    assert OccursAt(n, t + s, |t| + i);
  }

  /** Each joined name occurs in the joined text. */
  lemma {:induction false} JoinedOccurs(names: seq<string>, sep: char, n: string)
    requires n in names
    ensures Occurs(n, Joined(names, sep))
    decreases |names|
  {
    var j := Joined(names, sep);
    if |names| == 1 {
      assert OccursAt(n, j, 0);
    } else {
      var init := names[..|names| - 1];
      var last := names[|names| - 1];
      assert j == Joined(init, sep) + ([sep] + last);
      if n == last {
        assert j[|j| - |n|..|j| - |n| + |n|] == n;
        assert OccursAt(n, j, |j| - |n|);
      } else {
        assert n in init;
        JoinedOccurs(init, sep, n);
        OccursWithin(n, Joined(init, sep), [sep] + last);
      }
    }
  }

  /** Each name occurs in the tagged text. */
  lemma TaggedNames(names: seq<string>, sep: char, text: string, n: string)
    requires n in names
    ensures Occurs(n, Tagged(names, sep, text))
  {
    var j := Joined(names, sep);
    JoinedOccurs(names, sep, n);
    OccursWithin(n, j, "] " + text);
    OccursWithin(n, j + ("] " + text), "[");
    assert Tagged(names, sep, text) == "[" + (j + ("] " + text));
  }

  /** Every name of an error's context appears in its message. */
  lemma MessageNames(e: Error, n: string)
    requires n in e.Context()
    ensures Message(e).Some? && Occurs(n, Message(e).value)
  {
    match e
    case MissingSourceField(s, f) => TaggedNames([s], '.', "Missing data source " + FieldWords(f), n);
    case MissingSourceData(s) => TaggedNames([s], '.', "Missing data attributes in data source", n);
    case MissingObjectName(s) => TaggedNames([s], '.', "Missing object name", n);
    case MissingObjectAttributes(s, o) => TaggedNames([s, o], '.', "Missing object attributes", n);
    case MissingAttributeName(s, o) => TaggedNames([s, o], '/', "Missing attribute name", n);
    case MissingAttributeDescription(s, o, a) => TaggedNames([s, o, a], '/', "Missing attribute description", n);
  }

  /**
   * Runs `check` on the elements in order and stops at the first failure,
   * as a `for` loop or `forEach` whose body throws does.
   */
  function FirstFailure<T>(xs: seq<T>, check: T -> Outcome<Error>): Outcome<Error>
  {
    if |xs| == 0 then Pass
    else
      var prefix := FirstFailure(xs[..|xs| - 1], check);
      if prefix.Fail? then prefix else check(xs[|xs| - 1])
  }

  /** The run passes exactly when every element passes, and a failure is that of the first failing element. */
  lemma {:induction false} FirstFailureSpec<T>(xs: seq<T>, check: T -> Outcome<Error>)
    ensures FirstFailure(xs, check).Pass? <==> forall i :: 0 <= i < |xs| ==> check(xs[i]).Pass?
    ensures FirstFailure(xs, check).Fail? ==>
      exists i :: 0 <= i < |xs| && check(xs[i]) == FirstFailure(xs, check) && forall j :: 0 <= j < i ==> check(xs[j]).Pass?
    decreases |xs|
  {
    if |xs| > 0 {
      var k := |xs| - 1;
      FirstFailureSpec(xs[..k], check);
      assert forall i :: 0 <= i < k ==> xs[..k][i] == xs[i];
    }
  }

  /** Once a prefix has failed, the whole sequence fails with the same error. */
  lemma {:induction false} FirstFailureSticks<T>(xs: seq<T>, k: nat, check: T -> Outcome<Error>)
    requires k <= |xs|
    requires FirstFailure(xs[..k], check).Fail?
    ensures FirstFailure(xs, check) == FirstFailure(xs[..k], check)
    decreases |xs|
  {
    if k < |xs| {
      assert xs[..|xs| - 1][..k] == xs[..k];
      FirstFailureSticks(xs[..|xs| - 1], k, check);
    } else {
      assert xs[..k] == xs;
    }
  }

  /** Extending a passing prefix by one element yields that element's outcome. */
  lemma FirstFailureStep<T>(xs: seq<T>, k: nat, check: T -> Outcome<Error>)
    requires k < |xs|
    requires FirstFailure(xs[..k], check).Pass?
    ensures FirstFailure(xs[..k + 1], check) == check(xs[k])
  {
    assert xs[..k + 1][..k] == xs[..k];
  }

  predicate AttributeValid(a: Attribute)
  {
    Truthy(a.name) && Truthy(a.description)
  }

  predicate ObjectValid(o: DataObject)
  {
    && Truthy(o.name)
    && |Items(o.attributes)| > 0
    && forall i :: 0 <= i < |Items(o.attributes)| ==> AttributeValid(Items(o.attributes)[i])
  }

  function FieldOf(ds: DataSource, f: SourceField): Field
  {
    match f
    case Description => ds.description
    case FlowChart => ds.flowChart
    case PermittedUse => ds.permittedUse
    case Retention => ds.retention
  }

  /** The order in which `processDataSource` checks the fields after the name. */
  const SourceFields: seq<SourceField> := [Description, FlowChart, PermittedUse, Retention]

  /** The checks a data source makes on itself before it looks at its objects. */
  predicate SourceOwnFieldsPresent(ds: DataSource)
  {
    && Truthy(ds.name)
    && Truthy(ds.description)
    && Truthy(ds.flowChart)
    && Truthy(ds.permittedUse)
    && Truthy(ds.retention)
    && |Items(ds.data)| > 0
  }

  predicate SourceValid(ds: DataSource)
  {
    && SourceOwnFieldsPresent(ds)
    && forall i :: 0 <= i < |Items(ds.data)| ==> ObjectValid(Items(ds.data)[i])
  }

  /** The document's own checks; its descendants are checked when they are read. */
  predicate UseCaseValid(uc: UseCase)
  {
    && Truthy(uc.name)
    && Truthy(uc.author)
    && Truthy(uc.email)
    && forall i :: 0 <= i < |Items(uc.dataSources)| ==> SourceValid(Items(uc.dataSources)[i])
  }

  /** `processAttribute`'s checks, for an attribute of object `obj` in data source `source`. */
  function CheckAttribute(source: string, obj: string, a: Attribute): (r: Outcome<Error>)
    ensures r.Pass? <==> AttributeValid(a)
    ensures r.Fail? ==> r.error.MissingAttributeName? || r.error.MissingAttributeDescription?
    ensures r.Fail? ==> r.error.Context()[..2] == [source, obj]
    ensures r.Fail? ==> (|r.error.Context()| == 3 <==> Truthy(a.name))
    ensures r.Fail? && Truthy(a.name) ==> r.error.Context()[2] == a.name.value
  {
    if !Truthy(a.name) then Fail(MissingAttributeName(source, obj))
    else if !Truthy(a.description) then Fail(MissingAttributeDescription(source, obj, a.name.value))
    else Pass
  }

  function AttributeCheck(source: string, obj: string): Attribute -> Outcome<Error>
  {
    a => CheckAttribute(source, obj, a)
  }

  /** `processObject`'s checks, then those of its attributes in order. */
  function CheckObject(source: string, o: DataObject): Outcome<Error>
  {
    if !Truthy(o.name) then Fail(MissingObjectName(source))
    else if |Items(o.attributes)| == 0 then Fail(MissingObjectAttributes(source, o.name.value))
    else FirstFailure(Items(o.attributes), AttributeCheck(source, o.name.value))
  }

  function ObjectCheck(source: string): DataObject -> Outcome<Error>
  {
    o => CheckObject(source, o)
  }

  /** `processDataSource`'s checks, then those of its objects in order. */
  function CheckSource(ds: DataSource): Outcome<Error>
  {
    if !Truthy(ds.name) then Fail(MissingSourceName)
    else if !Truthy(ds.description) then Fail(MissingSourceField(ds.name.value, Description))
    else if !Truthy(ds.flowChart) then Fail(MissingSourceField(ds.name.value, FlowChart))
    else if !Truthy(ds.permittedUse) then Fail(MissingSourceField(ds.name.value, PermittedUse))
    else if !Truthy(ds.retention) then Fail(MissingSourceField(ds.name.value, Retention))
    else if |Items(ds.data)| == 0 then Fail(MissingSourceData(ds.name.value))
    else FirstFailure(Items(ds.data), ObjectCheck(ds.name.value))
  }

  /**
   * The checks `processUseCase` makes on one document, in order: name,
   * author, email, then each data source.
   */
  function CheckUseCase(uc: UseCase): Outcome<Error>
  {
    if !Truthy(uc.name) then Fail(MissingUseCaseName)
    else if !Truthy(uc.author) then Fail(MissingAuthor)
    else if !Truthy(uc.email) then Fail(MissingEmail)
    else FirstFailure(Items(uc.dataSources), CheckSource)
  }

  /** An object passes its checks exactly when it is valid. */
  lemma ObjectCheckValid(source: string, o: DataObject)
    ensures CheckObject(source, o).Pass? <==> ObjectValid(o)
  {
    if Truthy(o.name) && |Items(o.attributes)| > 0 {
      FirstFailureSpec(Items(o.attributes), AttributeCheck(source, o.name.value));
    }
  }

  /** A data source passes its checks exactly when it is valid. */
  lemma SourceCheckValid(ds: DataSource)
    ensures CheckSource(ds).Pass? <==> SourceValid(ds)
  {
    if SourceOwnFieldsPresent(ds) {
      var objs := Items(ds.data);
      FirstFailureSpec(objs, ObjectCheck(ds.name.value));
      forall i | 0 <= i < |objs|
        ensures CheckObject(ds.name.value, objs[i]).Pass? <==> ObjectValid(objs[i])
      {
        ObjectCheckValid(ds.name.value, objs[i]);
      }
    }
  }

  /** A document passes its own checks exactly when it is valid. */
  lemma UseCaseCheckValid(uc: UseCase)
    ensures CheckUseCase(uc).Pass? <==> UseCaseValid(uc)
  {
    if Truthy(uc.name) && Truthy(uc.author) && Truthy(uc.email) {
      var sources := Items(uc.dataSources);
      FirstFailureSpec(sources, CheckSource);
      forall i | 0 <= i < |sources|
        ensures CheckSource(sources[i]).Pass? <==> SourceValid(sources[i])
      {
        SourceCheckValid(sources[i]);
      }
    }
  }

  /**
   * A failing object names its data source, and the object itself once it
   * has a name; an attribute-level failure comes from its first bad attribute.
   */
  lemma ObjectBlame(source: string, o: DataObject)
    requires CheckObject(source, o).Fail?
    ensures var e := CheckObject(source, o).error;
      && |e.Context()| >= 1 && e.Context()[0] == source
      && (|e.Context()| >= 2 <==> Truthy(o.name))
      && (Truthy(o.name) ==> e.Context()[1] == o.name.value)
      && (e.MissingAttributeName? || e.MissingAttributeDescription? ==>
            exists i :: 0 <= i < |Items(o.attributes)| && !AttributeValid(Items(o.attributes)[i])
              && CheckAttribute(source, o.name.value, Items(o.attributes)[i]) == Fail(e)
              && forall j :: 0 <= j < i ==> AttributeValid(Items(o.attributes)[j]))
  {
    if Truthy(o.name) && |Items(o.attributes)| > 0 {
      var attrs := Items(o.attributes);
      var check := AttributeCheck(source, o.name.value);
      FirstFailureSpec(attrs, check);
      var i :| 0 <= i < |attrs| && check(attrs[i]) == CheckObject(source, o)
        && forall j :: 0 <= j < i ==> check(attrs[j]).Pass?;
      assert CheckAttribute(source, o.name.value, attrs[i]) == CheckObject(source, o);
    }
  }

  /**
   * A failing data source: a missing name is reported as such; every other
   * failure names the source; a missing field is the first falsy one in
   * check order; an object- or attribute-level failure means all of the
   * source's own checks passed.
   */
  lemma SourceBlame(ds: DataSource)
    requires CheckSource(ds).Fail?
    ensures var e := CheckSource(ds).error;
      && (e == MissingSourceName <==> !Truthy(ds.name))
      && (Truthy(ds.name) ==> |e.Context()| >= 1 && e.Context()[0] == ds.name.value)
      && (e.MissingSourceField? ==>
            exists k :: 0 <= k < |SourceFields| && SourceFields[k] == e.field
              && !Truthy(FieldOf(ds, e.field))
              && forall j :: 0 <= j < k ==> Truthy(FieldOf(ds, SourceFields[j])))
      && (|e.Context()| >= 2 ==> SourceOwnFieldsPresent(ds))
  {
    assert FieldOf(ds, SourceFields[0]) == ds.description && FieldOf(ds, SourceFields[1]) == ds.flowChart;
    assert FieldOf(ds, SourceFields[2]) == ds.permittedUse && FieldOf(ds, SourceFields[3]) == ds.retention;
    if SourceOwnFieldsPresent(ds) {
      var objs := Items(ds.data);
      var check := ObjectCheck(ds.name.value);
      FirstFailureSpec(objs, check);
      var i :| 0 <= i < |objs| && check(objs[i]) == CheckSource(ds)
        && forall j :: 0 <= j < i ==> check(objs[j]).Pass?;
      assert CheckObject(ds.name.value, objs[i]) == CheckSource(ds);
      ObjectBlame(ds.name.value, objs[i]);
    }
  }

  /**
   * The document's checks run in order: name, author, email, then the data
   * sources, the first failing source deciding the error.
   */
  lemma UseCaseCheckOrder(uc: UseCase)
    requires CheckUseCase(uc).Fail?
    ensures var e := CheckUseCase(uc).error;
      && (e == MissingUseCaseName <==> !Truthy(uc.name))
      && (e == MissingAuthor <==> Truthy(uc.name) && !Truthy(uc.author))
      && (e == MissingEmail <==> Truthy(uc.name) && Truthy(uc.author) && !Truthy(uc.email))
      && (Truthy(uc.name) && Truthy(uc.author) && Truthy(uc.email) ==>
            exists i :: 0 <= i < |Items(uc.dataSources)| && CheckSource(Items(uc.dataSources)[i]) == Fail(e)
              && forall j :: 0 <= j < i ==> SourceValid(Items(uc.dataSources)[j]))
  {
    if Truthy(uc.name) && Truthy(uc.author) && Truthy(uc.email) {
      var sources := Items(uc.dataSources);
      FirstFailureSpec(sources, CheckSource);
      var i :| 0 <= i < |sources| && CheckSource(sources[i]) == CheckUseCase(uc)
        && forall j :: 0 <= j < i ==> CheckSource(sources[j]).Pass?;
      forall j | 0 <= j < i
        ensures SourceValid(sources[j])
      {
        SourceCheckValid(sources[j]);
      }
      SourceBlame(sources[i]);
    }
  }
}
