/** The generator of the ArcGIS Pro toolbox (`ArcToolbox.py`): the data type
    names, the XDoc descriptions, the `toolbox.content` and `tool.content`
    dictionaries with their `.rc` string maps, the numbering of categories,
    the temporary output directory, the module filter, the module a tool
    script imports, and how a running tool turns parameter text into
    argument values. File and zip writing is replaced by returning the
    dictionaries that would be written. */
module ArcToolbox {
  import opened Wrappers
  import opened PyStr
  import opened PyDict

  /** The JSON that `json.dump` writes: strings, lists and objects. */
  datatype Content = CStr(s: string) | CList(items: seq<Content>) | CObj(members: Dict<string, Content>)

  /** An argument default, or a value passed to a tool; `text` is `str(value)`. */
  datatype PyObject = PyNone | PyObject(id: nat, text: string)

  /** The type metadata the generator looks at: a sequence type and its
      element type, or any other type with its ArcObjects class name. */
  datatype TypeMetadata =
    | SequenceType(elementType: TypeMetadata, canBeNone: bool)
    | ScalarType(arcGISType: string, canBeNone: bool)

  datatype ArgumentMetadata = ArgumentMetadata(
    name: string,
    typ: TypeMetadata,
    displayName: Option<string>,
    category: Option<string>,
    direction: string,
    hasDefault: bool,
    default: PyObject,
    dependencies: Option<seq<string>>,
    geoprocessorVariable: Option<string>)

  datatype ResultMetadata = ResultMetadata(
    name: string,
    typ: TypeMetadata,
    displayName: Option<string>,
    dependencies: Option<seq<string>>)

  /** A method exposed as a tool, with the names of its class and module. */
  datatype MethodMetadata = MethodMetadata(
    moduleName: string,
    className: string,
    name: string,
    toolCategory: string,
    displayName: string,
    shortDescription: string,
    longDescription: Option<string>,
    arguments: seq<ArgumentMetadata>,
    results: seq<ResultMetadata>)

  // ---------------------------------------------------------------------
  // Data type names

  /** The type a sequence finally holds, after every level of nesting. */
  function Innermost(t: TypeMetadata): (s: TypeMetadata)
    ensures s.ScalarType?
  {
    match t
    case SequenceType(e, _) => Innermost(e)
    case ScalarType(_, _) => t
  }

  /** The two names from which only `Class` is stripped. */
  const ClassOnlyNames: seq<string> := ["DEGeoDatasetTypeClass", "GPTypeClass"]

  /** `_GetArcGISDataType`: a sequence has its element's data type; any other
      type has the last dotted segment of its ArcObjects class name, with
      `Class` or `TypeClass` removed from the end. The result is a prefix of
      that segment and holds no dot. */
  function GetArcGISDataType(t: TypeMetadata): (r: string)
    ensures var s := LastSegment(Innermost(t).arcGISType, '.'); |r| <= |s| && r == s[..|r|] && '.' !in r
  {
    match t
    case SequenceType(e, _) => GetArcGISDataType(e)
    case ScalarType(name, _) =>
      SplitJoin(name, '.');
      var s := LastSegment(name, '.');
      assert s in SplitOn(name, '.');
      if s in ClassOnlyNames then
        assert forall i :: 0 <= i < |s| - 5 ==> s[..|s| - 5][i] == s[i];
        s[..|s| - 5]
      else if EndsWith(s, "TypeClass") then
        assert forall i :: 0 <= i < |s| - 9 ==> s[..|s| - 9][i] == s[i];
        s[..|s| - 9]
      else s
  }

  /** Putting back what was stripped gives the class name's last segment:
      `Class` for the two special names, `TypeClass` for other names with
      that ending, and nothing for the rest. */
  lemma {:induction false} DataTypeStripsSuffix(t: TypeMetadata)
    ensures LastSegment(Innermost(t).arcGISType, '.') in ClassOnlyNames ==>
      GetArcGISDataType(t) + "Class" == LastSegment(Innermost(t).arcGISType, '.')
    ensures (LastSegment(Innermost(t).arcGISType, '.') !in ClassOnlyNames &&
             EndsWith(LastSegment(Innermost(t).arcGISType, '.'), "TypeClass")) ==>
      GetArcGISDataType(t) + "TypeClass" == LastSegment(Innermost(t).arcGISType, '.')
    ensures (LastSegment(Innermost(t).arcGISType, '.') !in ClassOnlyNames &&
             !EndsWith(LastSegment(Innermost(t).arcGISType, '.'), "TypeClass")) ==>
      GetArcGISDataType(t) == LastSegment(Innermost(t).arcGISType, '.')
  {
    match t
    case SequenceType(e, _) => DataTypeStripsSuffix(e);
    case ScalarType(name, _) =>
      var s := LastSegment(name, '.');
      if s in ClassOnlyNames {
        SuffixRestored(s, "Class");
      } else if EndsWith(s, "TypeClass") {
        SuffixRestored(s, "TypeClass");
      }
  }

  /** Cutting a known ending off and appending it again gives the name back. */
  lemma SuffixRestored(s: string, suffix: string)
    requires EndsWith(s, suffix) || (suffix == "Class" && s in ClassOnlyNames)
    ensures |suffix| <= |s| && s[..|s| - |suffix|] + suffix == s
  {
    assert s[..|s| - |suffix|] + s[|s| - |suffix|..] == s;
  }

  // ---------------------------------------------------------------------
  // Descriptions

  /** `text.replace('\n', '<br/>')`. */
  function ReplaceNewlines(s: string): (r: string)
    ensures '\n' !in r
  {
    if s == [] then [] else (if s[0] == '\n' then "<br/>" else [s[0]]) + ReplaceNewlines(s[1..])
  }

  /** Replacing works piece by piece. */
  lemma {:induction false} ReplaceNewlinesAppend(a: string, b: string)
    ensures ReplaceNewlines(a + b) == ReplaceNewlines(a) + ReplaceNewlines(b)
  {
    if a != [] {
      var head := if a[0] == '\n' then "<br/>" else [a[0]];
      assert (a + b)[0] == a[0] && (a + b)[1..] == a[1..] + b;
      ReplaceNewlinesAppend(a[1..], b);
      calc {
        ReplaceNewlines(a + b);
        head + ReplaceNewlines(a[1..] + b);
        head + (ReplaceNewlines(a[1..]) + ReplaceNewlines(b));
        (head + ReplaceNewlines(a[1..])) + ReplaceNewlines(b);
        ReplaceNewlines(a) + ReplaceNewlines(b);
      }
    } else {
      assert a + b == b;
    }
  }

  /** Text without a newline is left as it is. */
  lemma {:induction false} ReplaceNewlinesKeepsPlainText(s: string)
    requires '\n' !in s
    ensures ReplaceNewlines(s) == s
  {
    if s != [] {
      assert '\n' !in s[1..] by { assert forall i :: 0 <= i < |s| - 1 ==> s[1..][i] == s[i + 1]; }
      ReplaceNewlinesKeepsPlainText(s[1..]);
      assert [s[0]] + s[1..] == s;
    }
  }

  /** `_RestructuredTextToEsriXDoc`: one XDoc element, every line break
      written as `<br/>`, so the result holds no newline. */
  function RestructuredTextToEsriXDoc(rst: string): (r: string)
    ensures StartsWith(r, "<xdoc>") && EndsWith(r, "</xdoc>") && '\n' !in r
  {
    "<xdoc>" + ReplaceNewlines(rst) + "</xdoc>"
  }

  /** Two paragraphs separated by a blank line become two pieces separated by
      two line breaks. */
  lemma ParagraphsReplaced(short: string, long: string)
    ensures ReplaceNewlines(short + "\n\n" + long) == ReplaceNewlines(short) + "<br/><br/>" + ReplaceNewlines(long)
  {
    ReplaceNewlinesAppend(short + "\n\n", long);
    ReplaceNewlinesAppend(short, "\n\n");
    BlankLineReplaced();
  }

  /** The XDoc of two paragraphs is the two replaced texts with two line
      breaks between them. */
  lemma ParagraphsXDoc(short: string, long: string)
    ensures RestructuredTextToEsriXDoc(short + "\n\n" + long) ==
      "<xdoc>" + ReplaceNewlines(short) + "<br/><br/>" + ReplaceNewlines(long) + "</xdoc>"
  {
    ParagraphsReplaced(short, long);
  }

  lemma BlankLineReplaced()
    ensures ReplaceNewlines("\n\n") == "<br/><br/>"
  {
    assert "\n\n"[1..] == "\n" && "\n"[1..] == [];
  }

  /** `_GetToolDescription`: one XDoc element holding the short
      description's text, then, when there is a long description, two line
      breaks and its text. */
  function GetToolDescription(mm: MethodMetadata): (r: string)
    ensures '\n' !in r
    ensures var short := ReplaceNewlines(mm.shortDescription);
      r == if mm.longDescription.None? then "<xdoc>" + short + "</xdoc>"
           else "<xdoc>" + short + "<br/><br/>" + ReplaceNewlines(mm.longDescription.value) + "</xdoc>"
  {
    if mm.longDescription.Some? then
      ParagraphsXDoc(mm.shortDescription, mm.longDescription.value);
      RestructuredTextToEsriXDoc(mm.shortDescription + "\n\n" + mm.longDescription.value)
    else
      RestructuredTextToEsriXDoc(mm.shortDescription)
  }

  // ---------------------------------------------------------------------
  // Numbering in order of first appearance

  predicate Distinct(xs: seq<string>) {
    forall i, j :: 0 <= i < j < |xs| ==> xs[i] != xs[j]
  }

  /** The position of the first `x` in `xs`, or `|xs|` when there is none. */
  function IndexOf(xs: seq<string>, x: string): (i: nat)
    ensures i <= |xs| && (i == |xs| <==> x !in xs)
    ensures i < |xs| ==> xs[i] == x
    ensures forall k :: 0 <= k < i ==> xs[k] != x
  {
    if xs == [] then 0 else if xs[0] == x then 0 else 1 + IndexOf(xs[1..], x)
  }

  /** The distinct values of `xs`, in the order in which each first appears:
      what a dictionary keyed by those values, filled while scanning `xs`,
      lists as its keys. */
  function FirstSeen(xs: seq<string>): (r: seq<string>)
    ensures Distinct(r) && forall x :: x in r <==> x in xs
  {
    if xs == [] then []
    else
      var init, x := xs[..|xs| - 1], xs[|xs| - 1];
      assert xs == init + [x];
      var p := FirstSeen(init);
      if x in p then p else p + [x]
  }

  /** One more value: a new one is added last, a known one changes nothing. */
  lemma FirstSeenAppend(xs: seq<string>, x: string)
    ensures FirstSeen(xs + [x]) == if x in xs then FirstSeen(xs) else FirstSeen(xs) + [x]
  {
    assert (xs + [x])[..|xs|] == xs;
  }

  /** The first-seen values of a prefix are a prefix of the first-seen values. */
  lemma {:induction false} FirstSeenPrefix(xs: seq<string>, k: nat)
    requires k <= |xs|
    ensures FirstSeen(xs[..k]) <= FirstSeen(xs)
    decreases |xs|
  {
    if k < |xs| {
      var init := xs[..|xs| - 1];
      assert init[..k] == xs[..k];
      FirstSeenPrefix(init, k);
    } else {
      assert xs[..k] == xs;
    }
  }

  /** The values of `r` come in the order of their first occurrence in `xs`. */
  predicate InFirstOccurrenceOrder(xs: seq<string>, r: seq<string>) {
    forall i, j :: 0 <= i < j < |r| ==> IndexOf(xs, r[i]) < IndexOf(xs, r[j])
  }

  lemma {:induction false} FirstSeenOrder(xs: seq<string>)
    ensures InFirstOccurrenceOrder(xs, FirstSeen(xs))
  {
    if xs != [] {
      var init, x := xs[..|xs| - 1], xs[|xs| - 1];
      assert xs == init + [x];
      FirstSeenOrder(init);
      var p := FirstSeen(init);
      forall k | 0 <= k < |p| ensures IndexOf(xs, p[k]) == IndexOf(init, p[k]) < |init| {
        assert p[k] in init;
        IndexOfExtended(init, [x], p[k]);
      }
      if x !in p {
        IndexOfAppended(init, x);
        var r := p + [x];
        forall i, j | 0 <= i < j < |r| ensures IndexOf(xs, r[i]) < IndexOf(xs, r[j]) {
          if j == |p| { assert r[i] == p[i]; }
          else { assert r[i] == p[i] && r[j] == p[j]; }
        }
        assert FirstSeen(xs) == r;
      } else {
        assert FirstSeen(xs) == p;
      }
    }
  }

  /** A value seen for the first time at the end is found there. */
  lemma IndexOfAppended(xs: seq<string>, x: string)
    requires x !in xs
    ensures IndexOf(xs + [x], x) == |xs|
  {
  }

  /** Appending to a sequence does not move the first occurrence of a value
      it already holds. */
  lemma IndexOfExtended(xs: seq<string>, ys: seq<string>, x: string)
    requires x in xs
    ensures IndexOf(xs + ys, x) == IndexOf(xs, x)
  {
    var i, j := IndexOf(xs, x), IndexOf(xs + ys, x);
    assert (xs + ys)[i] == x;
    if j < i { assert xs[j] == (xs + ys)[j]; }
  }

  /** The state of a numbering dictionary and its counter once the values
      in `order` have been seen: the k-th value seen is numbered k + 1. */
  ghost predicate Numbered(nums: map<string, nat>, last: nat, order: seq<string>) {
    last == |order| && (forall x :: x in nums <==> x in order) &&
    forall i :: 0 <= i < |order| ==> order[i] in nums && nums[order[i]] == i + 1
  }

  /** One more value scanned: a new value takes the next number, a known
      value keeps its number, and that number is its first-seen position. */
  lemma NumberedStep(nums: map<string, nat>, last: nat, xs: seq<string>, x: string)
    requires Numbered(nums, last, FirstSeen(xs))
    ensures x !in nums ==> Numbered(nums[x := last + 1], last + 1, FirstSeen(xs + [x]))
    ensures x in nums ==> Numbered(nums, last, FirstSeen(xs + [x]))
    ensures var n := if x in nums then nums[x] else last + 1; n == IndexOf(FirstSeen(xs + [x]), x) + 1
  {
    var p := FirstSeen(xs);
    assert FirstSeen(xs + [x]) == if x in p then p else p + [x] by {
      assert (xs + [x])[..|xs|] == xs;
    }
    if x in nums {
      var j := IndexOf(p, x);
      assert nums[p[j]] == j + 1;
    } else {
      NewNumbered(nums, last, p, x);
    }
  }

  lemma NewNumbered(nums: map<string, nat>, last: nat, p: seq<string>, x: string)
    requires Numbered(nums, last, p) && x !in nums
    ensures Numbered(nums[x := last + 1], last + 1, p + [x])
    ensures IndexOf(p + [x], x) == |p|
  {
    var q := p + [x];
    forall i | 0 <= i < |q| ensures q[i] in nums[x := last + 1] && nums[x := last + 1][q[i]] == i + 1 {
      if i < |p| {
        assert q[i] == p[i] != x;
      }
    }
  }

  /** A known prefix of the scanned values has a prefix of their first-seen values. */
  lemma FirstSeenOfPrefix(p: seq<string>, xs: seq<string>)
    requires p <= xs
    ensures FirstSeen(p) <= FirstSeen(xs)
  {
    assert xs[..|p|] == p;
    FirstSeenPrefix(xs, |p|);
  }

  /** A value of a prefix is found at the same place in the whole. */
  lemma IndexOfInPrefix(p: seq<string>, q: seq<string>, x: string)
    requires p <= q && x in p
    ensures IndexOf(q, x) == IndexOf(p, x)
  {
    assert q == p + q[|p|..];
    IndexOfExtended(p, q[|p|..], x);
  }

  // ---------------------------------------------------------------------
  // Keys of the `.rc` maps

  /** `'param.category' + str(n)`, the `.rc` key of category number `n`. */
  function CategoryKey(n: nat): string {
    "param.category" + NatToString(n)
  }

  /** `'$rc:param.category' + str(n)`, the reference to that key. */
  function CategoryRef(n: nat): string {
    "$rc:" + CategoryKey(n)
  }

  lemma CategoryKeyInjective(m: nat, n: nat)
    requires CategoryKey(m) == CategoryKey(n)
    ensures m == n
  {
    assert CategoryKey(m)[14..] == NatToString(m);
    assert CategoryKey(n)[14..] == NatToString(n);
    NatToStringInjective(m, n);
  }

  lemma CategoryRefInjective(m: nat, n: nat)
    requires CategoryRef(m) == CategoryRef(n)
    ensures m == n
  {
    assert CategoryRef(m)[4..] == CategoryKey(m);
    assert CategoryRef(n)[4..] == CategoryKey(n);
    CategoryKeyInjective(m, n);
  }

  /** The text written where no description exists yet. */
  const Todo: string := "TODO: Add description"

  /** The strings of an `.rc` map, as `json.dump` writes them under `map`. */
  function RcContent(d: Dict<string, string>): Content {
    CObj([("map", CObj(seq(|d|, i requires 0 <= i < |d| => (d[i].0, CStr(d[i].1)))))])
  }

  function StrList(xs: seq<string>): Content {
    CList(seq(|xs|, i requires 0 <= i < |xs| => CStr(xs[i])))
  }

  // ---------------------------------------------------------------------
  // tool.content and tool.content.rc

  predicate Displayed(a: ArgumentMetadata) { a.displayName.Some? }

  /** A displayed argument with a non-empty category. */
  predicate HasCategory(a: ArgumentMetadata) {
    a.displayName.Some? && a.category.Some? && |a.category.value| > 0
  }

  /** The categories of the arguments, in argument order, as the parameter
      loop meets them. */
  function ArgCategories(args: seq<ArgumentMetadata>): seq<string> {
    if args == [] then []
    else
      var a := args[|args| - 1];
      ArgCategories(args[..|args| - 1]) + (if HasCategory(a) then [a.category.value] else [])
  }

  lemma {:induction false} ArgCategoriesPrefix(args: seq<ArgumentMetadata>, k: nat)
    requires k <= |args|
    ensures ArgCategories(args[..k]) <= ArgCategories(args)
    decreases |args|
  {
    if k < |args| {
      assert args[..|args| - 1][..k] == args[..k];
      ArgCategoriesPrefix(args[..|args| - 1], k);
    } else {
      assert args[..k] == args;
    }
  }

  function DependencyPairs(deps: Option<seq<string>>): Dict<string, Content> {
    if deps.Some? && |deps.value| > 0 then [("dependencies", StrList(deps.value))] else []
  }

  /** The parameter entry of a displayed argument, given the reference to
      its category's `.rc` key when it has a category. */
  function ParamEntry(a: ArgumentMetadata, categoryRef: Option<string>): Dict<string, Content> {
    [("displayname", CStr("$rc:" + a.name + ".name")),
     ("datatype", CObj([("type", CStr(GetArcGISDataType(a.typ)))])),
     ("description", CStr("$rc:" + a.name + ".descr"))]
    + (if categoryRef.Some? then [("category", CStr(categoryRef.value))] else [])
    + (if a.direction == "Output" then [("direction", CStr("out"))] else [])
    + (if a.hasDefault then [("type", CStr("optional"))] else [])
    + (if a.hasDefault && a.default != PyNone then [("value", CStr(a.default.text))] else [])
    + DependencyPairs(a.dependencies)
  }

  /** The category reference of an argument: `order` lists the tool's
      categories as first seen, and a category's number is its place there. */
  function CategoryRefOf(a: ArgumentMetadata, order: seq<string>): Option<string> {
    if HasCategory(a) then Some(CategoryRef(IndexOf(order, a.category.value) + 1)) else None
  }

  /** The parameter entry of a displayed result: always derived output. */
  function ResultEntry(r: ResultMetadata): Dict<string, Content> {
    [("displayname", CStr("$rc:" + r.name + ".name")),
     ("datatype", CObj([("type", CStr(GetArcGISDataType(r.typ)))])),
     ("description", CStr("$rc:" + r.name + ".descr")),
     ("direction", CStr("out")),
     ("type", CStr("derived"))]
    + DependencyPairs(r.dependencies)
  }

  /** The `.rc` label of an argument's category when it is not among the
      categories `seen` before it, under the key of its place in `order`. */
  function CategoryLabel(a: ArgumentMetadata, seen: seq<string>, order: seq<string>): seq<(string, string)> {
    if HasCategory(a) && a.category.value !in seen
    then [(CategoryKey(IndexOf(order, a.category.value) + 1), a.category.value)] else []
  }

  /** The `params` assignments the argument loop makes, in order. */
  function ArgParams(args: seq<ArgumentMetadata>, order: seq<string>): seq<(string, Content)> {
    if args == [] then []
    else
      var a := args[|args| - 1];
      ArgParams(args[..|args| - 1], order) + (if Displayed(a) then [(a.name, CObj(ParamEntry(a, CategoryRefOf(a, order))))] else [])
  }

  /** The `params` assignments the result loop makes, in order. */
  function ResultParams(results: seq<ResultMetadata>): seq<(string, Content)> {
    if results == [] then []
    else
      var r := results[|results| - 1];
      ResultParams(results[..|results| - 1]) + (if r.displayName.Some? then [(r.name, CObj(ResultEntry(r)))] else [])
  }

  /** The `.rc` assignments the argument loop makes: the name and description
      of each displayed argument, then the label of a category met for the
      first time. */
  function ArgRcPairs(args: seq<ArgumentMetadata>, order: seq<string>): seq<(string, string)> {
    if args == [] then []
    else
      var init, a := args[..|args| - 1], args[|args| - 1];
      ArgRcPairs(init, order) +
      (if Displayed(a) then
        [(a.name + ".name", a.displayName.value), (a.name + ".descr", Todo)] +
        CategoryLabel(a, ArgCategories(init), order)
       else [])
  }

  function ResultRcPairs(results: seq<ResultMetadata>): seq<(string, string)> {
    if results == [] then []
    else
      var r := results[|results| - 1];
      ResultRcPairs(results[..|results| - 1]) +
      (if r.displayName.Some? then [(r.name + ".name", r.displayName.value), (r.name + ".descr", Todo)] else [])
  }

  /** The tool's parameters: each displayed argument, then each displayed
      result, under its name (a later entry with the same name replaces an
      earlier one). */
  function ToolParams(mm: MethodMetadata): Dict<string, Content> {
    var order := FirstSeen(ArgCategories(mm.arguments));
    Update(Update([], ArgParams(mm.arguments, order)), ResultParams(mm.results))
  }

  /** `tool.content.rc`: the title and description, which no parameter's
      key can overwrite, then the argument and result labels. */
  function ToolRc(mm: MethodMetadata): (r: Dict<string, string>)
    ensures Get(r, "title") == Some(mm.displayName)
    ensures Get(r, "description") == Some(GetToolDescription(mm))
  {
    var order := FirstSeen(ArgCategories(mm.arguments));
    var base := [("title", mm.displayName), ("description", GetToolDescription(mm))];
    var args, res := ArgRcPairs(mm.arguments, order), ResultRcPairs(mm.results);
    ArgRcPairsDotted(mm.arguments, order);
    ResultRcPairsDotted(mm.results);
    HeaderSurvives(mm.displayName, GetToolDescription(mm), args, res);
    Update(Update(base, args), res)
  }

  /** Labels with dotted keys leave the title and the description alone. */
  lemma HeaderSurvives(title: string, description: string, e: seq<(string, string)>, f: seq<(string, string)>)
    requires DottedKeys(e) && DottedKeys(f)
    ensures var rc := Update(Update([("title", title), ("description", description)], e), f);
      Get(rc, "title") == Some(title) && Get(rc, "description") == Some(description)
  {
    var base := [("title", title), ("description", description)];
    assert '.' !in "title" && '.' !in "description";
    DottedKeysMiss(base, e, "title");
    DottedKeysMiss(Update(base, e), f, "title");
    DottedKeysMiss(base, e, "description");
    DottedKeysMiss(Update(base, e), f, "description");
    assert base[1..][0].0 == "description";
  }

  /** `tool.content`: an object whose `params` member holds the tool's
      parameters. */
  function ToolContent(mm: MethodMetadata): (c: Content)
    ensures c.CObj? && Get(c.members, "params") == Some(CObj(ToolParams(mm)))
  {
    var members := ToolMembers(CObj(ToolParams(mm)));
    GetAt(members, 3, "params");
    CObj(members)
  }

  function ToolMembers(params: Content): Dict<string, Content> {
    [("type", CStr("ScriptTool")), ("displayname", CStr("$rc:title")), ("description", CStr("$rc:description")),
     ("params", params), ("environments", CList([]))]
  }

  /** The only `.rc` references at the top of `tool.content` are the title
      and the description. */
  lemma ToolMembersRefs(params: Content)
    requires !params.CStr?
    ensures var ms := ToolMembers(params);
      forall i :: 0 <= i < |ms| && ms[i].1.CStr? && StartsWith(ms[i].1.s, "$rc:") ==> ms[i].1.s[4..] in ["title", "description"]
  {
    var ms := ToolMembers(params);
    forall i | 0 <= i < |ms| && ms[i].1.CStr?
      ensures StartsWith(ms[i].1.s, "$rc:") ==> ms[i].1.s[4..] in ["title", "description"]
    {
      if i == 0 {
        assert ms[0].1.s[0] == 'S';
      } else if i == 1 {
        assert ms[1].1.s[4..] == "title";
      } else {
        assert i == 2;
        assert ms[2].1.s[4..] == "description";
      }
    }
  }

  /** The `$rc:` references at the top of `tool.content` resolve in
      `tool.content.rc`. */
  lemma ToolContentRefsResolve(mm: MethodMetadata)
    ensures var ms := ToolContent(mm).members;
      forall i :: 0 <= i < |ms| && ms[i].1.CStr? && StartsWith(ms[i].1.s, "$rc:") ==> Get(ToolRc(mm), ms[i].1.s[4..]).Some?
  {
    ToolMembersRefs(CObj(ToolParams(mm)));
    var rc := ToolRc(mm);
    assert Get(rc, "title").Some? && Get(rc, "description").Some?;
  }

  /** Every `.rc` key a parameter adds holds a dot (`<name>.name`,
      `<name>.descr`, `param.category<n>`). */
  predicate DottedKeys(ps: seq<(string, string)>) {
    forall i :: 0 <= i < |ps| ==> '.' in ps[i].0
  }

  lemma {:induction false} ArgRcPairsDotted(args: seq<ArgumentMetadata>, order: seq<string>)
    ensures DottedKeys(ArgRcPairs(args, order))
    decreases |args|
  {
    if args != [] {
      var init, a := args[..|args| - 1], args[|args| - 1];
      ArgRcPairsDotted(init, order);
      if Displayed(a) {
        assert (a.name + ".name")[|a.name|] == '.' && (a.name + ".descr")[|a.name|] == '.';
        var catLabel := CategoryLabel(a, ArgCategories(init), order);
        if catLabel != [] {
          assert catLabel[0].0[5] == '.';
        }
        var tail := [(a.name + ".name", a.displayName.value), (a.name + ".descr", Todo)] + catLabel;
        assert DottedKeys(tail);
        DottedKeysAppend(ArgRcPairs(init, order), tail);
      }
    }
  }

  lemma {:induction false} ResultRcPairsDotted(results: seq<ResultMetadata>)
    ensures DottedKeys(ResultRcPairs(results))
    decreases |results|
  {
    if results != [] {
      var r := results[|results| - 1];
      ResultRcPairsDotted(results[..|results| - 1]);
      if r.displayName.Some? {
        assert (r.name + ".name")[|r.name|] == '.' && (r.name + ".descr")[|r.name|] == '.';
        DottedKeysAppend(ResultRcPairs(results[..|results| - 1]), [(r.name + ".name", r.displayName.value), (r.name + ".descr", Todo)]);
      }
    }
  }

  lemma DottedKeysAppend(a: seq<(string, string)>, b: seq<(string, string)>)
    requires DottedKeys(a) && DottedKeys(b)
    ensures DottedKeys(a + b)
  {
    forall i | 0 <= i < |a + b| ensures '.' in (a + b)[i].0 {
      if i >= |a| { assert (a + b)[i] == b[i - |a|]; }
    }
  }

  /** Updating with dotted keys leaves an undotted key's value alone. */
  lemma DottedKeysMiss(d: Dict<string, string>, e: seq<(string, string)>, k: string)
    requires DottedKeys(e) && '.' !in k
    ensures Get(Update(d, e), k) == Get(d, k)
  {
    UpdateGet(d, e, k);
    LastValueSome(e, k);
  }

  /** What one more argument adds to the three argument sequences. */
  lemma ArgStep(args: seq<ArgumentMetadata>, k: nat, order: seq<string>)
    requires k < |args|
    ensures ArgCategories(args[..k + 1]) ==
      ArgCategories(args[..k]) + (if HasCategory(args[k]) then [args[k].category.value] else [])
    ensures ArgParams(args[..k + 1], order) == ArgParams(args[..k], order) +
      (if Displayed(args[k]) then [(args[k].name, CObj(ParamEntry(args[k], CategoryRefOf(args[k], order))))] else [])
    ensures ArgRcPairs(args[..k + 1], order) == ArgRcPairs(args[..k], order) +
      (if Displayed(args[k]) then
        [(args[k].name + ".name", args[k].displayName.value), (args[k].name + ".descr", Todo)] +
        CategoryLabel(args[k], ArgCategories(args[..k]), order)
       else [])
  {
    assert args[..k + 1][..k] == args[..k];
  }

  lemma ResultStep(results: seq<ResultMetadata>, k: nat)
    requires k < |results|
    ensures var r := results[k];
      ResultParams(results[..k + 1]) == ResultParams(results[..k]) + (if r.displayName.Some? then [(r.name, CObj(ResultEntry(r)))] else []) &&
      ResultRcPairs(results[..k + 1]) == ResultRcPairs(results[..k]) +
        (if r.displayName.Some? then [(r.name + ".name", r.displayName.value), (r.name + ".descr", Todo)] else [])
  {
    assert results[..k + 1][..k] == results[..k];
  }

  /** Updating with one more pair is setting it. */
  lemma UpdateOne<V>(d: Dict<string, V>, e: seq<(string, V)>, p: (string, V))
    ensures Update(d, e + [p]) == Set(Update(d, e), p.0, p.1)
  {
    assert (e + [p])[..|e|] == e;
  }

  lemma UpdateTwo<V>(d: Dict<string, V>, e: seq<(string, V)>, p: (string, V), q: (string, V))
    ensures Update(d, e + [p, q]) == Set(Set(Update(d, e), p.0, p.1), q.0, q.1)
  {
    assert e + [p, q] == (e + [p]) + [q];
    UpdateOne(d, e + [p], q);
    UpdateOne(d, e, p);
  }

  /** Numbering the category of argument `k`: a category met before keeps
      its number, a new one takes the next, and either way the number is the
      category's place among the tool's categories as first seen. */
  lemma ArgCategoryStep(args: seq<ArgumentMetadata>, k: nat, catNums: map<string, nat>, last: nat)
    requires k < |args| && HasCategory(args[k])
    requires Numbered(catNums, last, FirstSeen(ArgCategories(args[..k])))
    ensures var cat := args[k].category.value;
      (cat in catNums <==> cat in ArgCategories(args[..k])) &&
      (if cat in catNums then catNums[cat] else last + 1) == IndexOf(FirstSeen(ArgCategories(args)), cat) + 1 &&
      (cat !in catNums ==> Numbered(catNums[cat := last + 1], last + 1, FirstSeen(ArgCategories(args[..k + 1])))) &&
      (cat in catNums ==> Numbered(catNums, last, FirstSeen(ArgCategories(args[..k + 1]))))
  {
    var cat, xs := args[k].category.value, ArgCategories(args[..k]);
    ArgCategoriesStep(args, k);
    assert ArgCategories(args[..k + 1]) == xs + [cat];
    NumberedStep(catNums, last, xs, cat);
    ArgCategoriesPrefix(args, k + 1);
    FirstSeenOfPrefix(xs + [cat], ArgCategories(args));
    assert cat in FirstSeen(xs + [cat]);
    IndexOfInPrefix(FirstSeen(xs + [cat]), FirstSeen(ArgCategories(args)), cat);
  }

  /** What one more argument adds to the categories met. */
  lemma ArgCategoriesStep(args: seq<ArgumentMetadata>, k: nat)
    requires k < |args|
    ensures ArgCategories(args[..k + 1]) == ArgCategories(args[..k]) + (if HasCategory(args[k]) then [args[k].category.value] else [])
  {
    assert args[..k + 1][..k] == args[..k];
  }

  /** An argument that is not displayed adds nothing. */
  lemma ArgHiddenStep(args: seq<ArgumentMetadata>, k: nat, order: seq<string>)
    requires k < |args| && !Displayed(args[k])
    ensures ArgCategories(args[..k + 1]) == ArgCategories(args[..k])
    ensures ArgParams(args[..k + 1], order) == ArgParams(args[..k], order)
    ensures ArgRcPairs(args[..k + 1], order) == ArgRcPairs(args[..k], order)
  {
    ArgStep(args, k, order);
    assert ArgParams(args[..k + 1], order) == ArgParams(args[..k], order) + [];
    assert ArgRcPairs(args[..k + 1], order) == ArgRcPairs(args[..k], order) + [];
    assert ArgCategories(args[..k + 1]) == ArgCategories(args[..k]) + [];
  }

  /** A displayed argument adds its parameter, its name and description
      labels and, for a category met for the first time, the category label. */
  lemma ArgDisplayedStep(args: seq<ArgumentMetadata>, k: nat, order: seq<string>,
                         categoryRef: Option<string>, catLabel: seq<(string, string)>)
    requires k < |args| && Displayed(args[k])
    requires categoryRef == CategoryRefOf(args[k], order)
    requires catLabel == CategoryLabel(args[k], ArgCategories(args[..k]), order)
    ensures var a := args[k];
      ArgParams(args[..k + 1], order) == ArgParams(args[..k], order) + [(a.name, CObj(ParamEntry(a, categoryRef)))] &&
      ArgRcPairs(args[..k + 1], order) ==
        ArgRcPairs(args[..k], order) + [(a.name + ".name", a.displayName.value), (a.name + ".descr", Todo)] + catLabel
  {
    ArgStep(args, k, order);
  }

  /** The category numbering of `_CreateToolContentFile` for argument `k`:
      a category met before keeps its number, a new one takes the next. */
  method NumberCategory(ghost args: seq<ArgumentMetadata>, ghost k: nat, cat: string,
                        catNums: map<string, nat>, lastCatNum: nat)
    returns (catNums': map<string, nat>, lastCatNum': nat, isNew: bool)
    requires k < |args| && HasCategory(args[k]) && cat == args[k].category.value
    requires Numbered(catNums, lastCatNum, FirstSeen(ArgCategories(args[..k])))
    ensures Numbered(catNums', lastCatNum', FirstSeen(ArgCategories(args[..k + 1])))
    ensures isNew <==> cat !in ArgCategories(args[..k])
    ensures cat in catNums' && catNums'[cat] == IndexOf(FirstSeen(ArgCategories(args)), cat) + 1
  {
    ArgCategoryStep(args, k, catNums, lastCatNum);
    isNew := cat !in catNums;
    if isNew {
      lastCatNum' := lastCatNum + 1;
      catNums' := catNums[cat := lastCatNum'];
    } else {
      catNums', lastCatNum' := catNums, lastCatNum;
    }
  }

  /** The body of the argument loop of `_CreateToolContentFile` for a
      displayed argument. */
  method AddDisplayedArgument(ghost args: seq<ArgumentMetadata>, k: nat, ghost order: seq<string>, a: ArgumentMetadata,
                              params: Dict<string, Content>, rcMap: Dict<string, string>,
                              catNums: map<string, nat>, lastCatNum: nat)
    returns (params': Dict<string, Content>, rcMap': Dict<string, string>,
             catNums': map<string, nat>, lastCatNum': nat, ghost catLabel: seq<(string, string)>)
    requires k < |args| && a == args[k] && Displayed(a) && order == FirstSeen(ArgCategories(args))
    requires Numbered(catNums, lastCatNum, FirstSeen(ArgCategories(args[..k])))
    ensures Numbered(catNums', lastCatNum', FirstSeen(ArgCategories(args[..k + 1])))
    ensures params' == Set(params, a.name, CObj(ParamEntry(a, CategoryRefOf(a, order))))
    ensures ArgParams(args[..k + 1], order) == ArgParams(args[..k], order) + [(a.name, CObj(ParamEntry(a, CategoryRefOf(a, order))))]
    ensures ArgRcPairs(args[..k + 1], order) == ArgRcPairs(args[..k], order) + [(a.name + ".name", a.displayName.value), (a.name + ".descr", Todo)] + catLabel &&
      rcMap' == Update(Set(Set(rcMap, a.name + ".name", a.displayName.value), a.name + ".descr", Todo), catLabel)
  {
    rcMap' := Set(rcMap, a.name + ".name", a.displayName.value);
    rcMap' := Set(rcMap', a.name + ".descr", Todo);
    var categoryRef;
    rcMap', catNums', lastCatNum', categoryRef, catLabel := AddArgumentCategory(args, k, order, a, rcMap', catNums, lastCatNum);
    ArgDisplayedStep(args, k, order, categoryRef, catLabel);
    params' := Set(params, a.name, CObj(ParamEntry(a, categoryRef)));
  }

  /** The category part of that body: the argument's category is numbered,
      labelled in the `.rc` map when first met, and referred to. */
  method AddArgumentCategory(ghost args: seq<ArgumentMetadata>, k: nat, ghost order: seq<string>, a: ArgumentMetadata,
                             rcMap: Dict<string, string>, catNums: map<string, nat>, lastCatNum: nat)
    returns (rcMap': Dict<string, string>, catNums': map<string, nat>, lastCatNum': nat,
             categoryRef: Option<string>, ghost catLabel: seq<(string, string)>)
    requires k < |args| && a == args[k] && Displayed(a) && order == FirstSeen(ArgCategories(args))
    requires Numbered(catNums, lastCatNum, FirstSeen(ArgCategories(args[..k])))
    ensures Numbered(catNums', lastCatNum', FirstSeen(ArgCategories(args[..k + 1])))
    ensures categoryRef == CategoryRefOf(a, order)
    ensures catLabel == CategoryLabel(a, ArgCategories(args[..k]), order)
    ensures rcMap' == Update(rcMap, catLabel)
  {
    rcMap', catNums', lastCatNum', categoryRef, catLabel := rcMap, catNums, lastCatNum, None, [];
    if a.category.Some? && |a.category.value| > 0 {
      var cat := a.category.value;
      var isNew;
      catNums', lastCatNum', isNew := NumberCategory(args, k, cat, catNums, lastCatNum);
      if isNew {
        rcMap' := Set(rcMap, CategoryKey(catNums'[cat]), cat);
        catLabel := [(CategoryKey(catNums'[cat]), cat)];
        UpdateSingle(rcMap, CategoryKey(catNums'[cat]), cat);
      } else {
        assert Update(rcMap, []) == rcMap;
      }
      assert catLabel == CategoryLabel(a, ArgCategories(args[..k]), order);
      categoryRef := Some(CategoryRef(catNums'[cat]));
    } else {
      assert Update(rcMap, []) == rcMap;
      ArgCategoriesStep(args, k);
      assert ArgCategories(args[..k + 1]) == ArgCategories(args[..k]) + [];
      assert ArgCategories(args[..k + 1]) == ArgCategories(args[..k]);
    }
  }

  /** The argument loop of `_CreateToolContentFile`: parameters and `.rc`
      entries of the displayed arguments, categories numbered per tool as
      first met. */
  method ArgumentParameters(args: seq<ArgumentMetadata>, rcBase: Dict<string, string>)
    returns (params: Dict<string, Content>, rcMap: Dict<string, string>)
    ensures var order := FirstSeen(ArgCategories(args));
      params == Update([], ArgParams(args, order)) && rcMap == Update(rcBase, ArgRcPairs(args, order))
  {
    ghost var order := FirstSeen(ArgCategories(args));
    params, rcMap := [], rcBase;
    var catNums: map<string, nat> := map[];
    var lastCatNum: nat := 0;
    for k := 0 to |args|
      invariant Numbered(catNums, lastCatNum, FirstSeen(ArgCategories(args[..k])))
      invariant params == Update([], ArgParams(args[..k], order))
      invariant rcMap == Update(rcBase, ArgRcPairs(args[..k], order))
    {
      var a := args[k];
      ghost var p0, rc0 := ArgParams(args[..k], order), ArgRcPairs(args[..k], order);
      if a.displayName.Some? {
        ghost var rcPrev := rcMap;
        ghost var catLabel;
        params, rcMap, catNums, lastCatNum, catLabel := AddDisplayedArgument(args, k, order, a, params, rcMap, catNums, lastCatNum);
        UpdateOne([], p0, (a.name, CObj(ParamEntry(a, CategoryRefOf(a, order)))));
        UpdateTwo(rcBase, rc0, (a.name + ".name", a.displayName.value), (a.name + ".descr", Todo));
        UpdateAppend(rcBase, rc0 + [(a.name + ".name", a.displayName.value), (a.name + ".descr", Todo)], catLabel);
      } else {
        ArgHiddenStep(args, k, order);
      }
    }
    assert args[..|args|] == args;
  }

  /** The result loop of `_CreateToolContentFile`. */
  method ResultParameters(results: seq<ResultMetadata>, params0: Dict<string, Content>, rc0: Dict<string, string>)
    returns (params: Dict<string, Content>, rcMap: Dict<string, string>)
    ensures params == Update(params0, ResultParams(results)) && rcMap == Update(rc0, ResultRcPairs(results))
  {
    params, rcMap := params0, rc0;
    for k := 0 to |results|
      invariant params == Update(params0, ResultParams(results[..k]))
      invariant rcMap == Update(rc0, ResultRcPairs(results[..k]))
    {
      var r := results[k];
      ResultStep(results, k);
      if r.displayName.Some? {
        var entry: Dict<string, Content> :=
          [("displayname", CStr("$rc:" + r.name + ".name")),
           ("datatype", CObj([("type", CStr(GetArcGISDataType(r.typ)))])),
           ("description", CStr("$rc:" + r.name + ".descr")),
           ("direction", CStr("out")),
           ("type", CStr("derived"))];
        rcMap := Set(rcMap, r.name + ".name", r.displayName.value);
        rcMap := Set(rcMap, r.name + ".descr", Todo);
        if r.dependencies.Some? && |r.dependencies.value| > 0 {
          entry := entry + [("dependencies", StrList(r.dependencies.value))];
        }
        assert entry == ResultEntry(r);
        params := Set(params, r.name, CObj(entry));
        UpdateOne(params0, ResultParams(results[..k]), (r.name, CObj(ResultEntry(r))));
        UpdateTwo(rc0, ResultRcPairs(results[..k]), (r.name + ".name", r.displayName.value), (r.name + ".descr", Todo));
      } else {
        assert ResultParams(results[..k + 1]) == ResultParams(results[..k]) + [] == ResultParams(results[..k]);
        assert ResultRcPairs(results[..k + 1]) == ResultRcPairs(results[..k]) + [] == ResultRcPairs(results[..k]);
      }
    }
    assert results[..|results|] == results;
  }

  /** `_CreateToolContentFile`: the `tool.content` and `tool.content.rc`
      dictionaries of one tool. */
  method CreateToolContentFile(mm: MethodMetadata) returns (content: Content, rc: Content)
    ensures content == ToolContent(mm)
    ensures rc == RcContent(ToolRc(mm))
  {
    var rcMap: Dict<string, string> := [("title", mm.displayName), ("description", GetToolDescription(mm))];
    var params: Dict<string, Content>;
    params, rcMap := ArgumentParameters(mm.arguments, rcMap);
    params, rcMap := ResultParameters(mm.results, params, rcMap);
    content := CObj([("type", CStr("ScriptTool")), ("displayname", CStr("$rc:title")), ("description", CStr("$rc:description")),
                     ("params", CObj(params)), ("environments", CList([]))]);
    rc := RcContent(rcMap);
  }

  // ---------------------------------------------------------------------
  // The tool scripts

  /** The module a tool script imports: the containing package when the
      class lives in a private module (last segment starting with `_`). */
  function ImportedModule(moduleName: string): string {
    if StartsWith(LastSegment(moduleName, '.'), "_") then RSplitHead(moduleName, '.') else moduleName
  }

  /** A public module is imported as is; a private one is replaced by its
      parent package, which followed by the private segment gives the module
      back. */
  lemma ImportedModuleParent(moduleName: string)
    ensures !StartsWith(LastSegment(moduleName, '.'), "_") ==> ImportedModule(moduleName) == moduleName
    ensures StartsWith(LastSegment(moduleName, '.'), "_") && '.' in moduleName ==>
      ImportedModule(moduleName) + "." + LastSegment(moduleName, '.') == moduleName &&
      |ImportedModule(moduleName)| < |moduleName|
  {
    if '.' in moduleName {
      RSplitHeadLastSegment(moduleName, '.');
    }
  }

  /** The two parts of `tool.script.execute.py` that vary from tool to tool:
      the module it imports and the method it hands to
      `_ExecuteMethodAsGeoprocessingTool`. */
  datatype ExecuteScript = ExecuteScript(importedModule: string, target: string)

  function ExecuteScriptOf(mm: MethodMetadata): (r: ExecuteScript)
    ensures r.target == r.importedModule + "." + mm.className + "." + mm.name
  {
    var fqn := ImportedModule(mm.moduleName);
    ExecuteScript(fqn, fqn + "." + mm.className + "." + mm.name)
  }

  // ---------------------------------------------------------------------
  // toolbox.content and toolbox.content.rc

  /** What `_CreateContentFiles` writes for one tool: the directory
      `<name>.tool`, its `tool.content` and `tool.content.rc`, and its
      execute script. */
  datatype ToolFiles = ToolFiles(dirName: string, content: Content, rc: Content, script: ExecuteScript)

  /** `[f(x) for x in xs]`. */
  function Map<A, B>(f: A -> B, xs: seq<A>): (r: seq<B>)
    ensures |r| == |xs| && forall i :: 0 <= i < |xs| ==> r[i] == f(xs[i])
  {
    seq(|xs|, i requires 0 <= i < |xs| => f(xs[i]))
  }

  lemma MapStep<A, B>(f: A -> B, xs: seq<A>, k: nat)
    requires k < |xs|
    ensures Map(f, xs[..k + 1]) == Map(f, xs[..k]) + [f(xs[k])]
  {
  }

  /** The name of a method's tool: the last segment of its class name, then
      the method name. */
  function ToolName(m: MethodMetadata): string {
    LastSegment(m.className, '.') + m.name
  }

  function ToolFilesOf(m: MethodMetadata): ToolFiles {
    ToolFiles(ToolName(m) + ".tool", ToolContent(m), RcContent(ToolRc(m)), ExecuteScriptOf(m))
  }

  /** The toolset category of each method, in order. */
  function Categories(ms: seq<MethodMetadata>): (r: seq<string>)
    ensures |r| == |ms| && forall i :: 0 <= i < |ms| ==> r[i] == ms[i].toolCategory
  {
    seq(|ms|, i requires 0 <= i < |ms| => ms[i].toolCategory)
  }

  /** The names of the tools of category `c`, in the order of `ms`. */
  function ToolsIn(ms: seq<MethodMetadata>, c: string): seq<string> {
    if ms == [] then []
    else
      var m := ms[|ms| - 1];
      ToolsIn(ms[..|ms| - 1], c) + (if m.toolCategory == c then [ToolName(m)] else [])
  }

  /** The toolsets: the k-th category first seen is keyed by the reference
      to label `k`, and lists its tools. */
  function Toolsets(ms: seq<MethodMetadata>): Dict<string, seq<string>> {
    var order := FirstSeen(Categories(ms));
    seq(|order|, i requires 0 <= i < |order| => (CategoryRef(i + 1), ToolsIn(ms, order[i])))
  }

  /** The label of the k-th category, under key `param.category<k>`. */
  function CategoryLabels(order: seq<string>): Dict<string, string> {
    seq(|order|, i requires 0 <= i < |order| => (CategoryKey(i + 1), order[i]))
  }

  /** `toolbox.content.rc`: the title, the description and one label per
      category; the k-th category first seen is labelled under
      `param.category<k>`, and no other number has a label. */
  function ToolboxRc(displayName: string, description: string, ms: seq<MethodMetadata>): (r: Dict<string, string>)
    ensures UniqueKeys(r)
    ensures Get(r, "title") == Some(displayName) && Get(r, "description") == Some(description)
    ensures var order := FirstSeen(Categories(ms));
      (forall i :: 0 <= i < |order| ==> Get(r, CategoryKey(i + 1)) == Some(order[i])) &&
      (forall n: nat :: n == 0 || n > |order| ==> Get(r, CategoryKey(n)) == None)
  {
    ToolboxLabels(displayName, description, FirstSeen(Categories(ms)));
    [("title", displayName), ("description", description)] + CategoryLabels(FirstSeen(Categories(ms)))
  }

  function ToolsetsContent(ts: Dict<string, seq<string>>): Content {
    CObj(seq(|ts|, i requires 0 <= i < |ts| => (ts[i].0, CObj([("tools", StrList(ts[i].1))]))))
  }

  /** `toolbox.content`: its `toolsets` object lists the categories in
      first-seen order, the k-th under the reference to `param.category<k>`
      with the tools of that category. */
  function ToolboxContent(alias: string, ms: seq<MethodMetadata>): (c: Content)
    ensures c.CObj? && Get(c.members, "toolsets").Some?
    ensures var order, ts := FirstSeen(Categories(ms)), Get(c.members, "toolsets").value;
      ts.CObj? && |ts.members| == |order| &&
      forall i :: 0 <= i < |order| ==>
        ts.members[i] == ("$rc:" + CategoryKey(i + 1), CObj([("tools", StrList(ToolsIn(ms, order[i])))]))
  {
    var members := [("version", CStr("1.0")), ("alias", CStr(alias)), ("displayname", CStr("$rc:title")),
                    ("description", CStr("$rc:description")), ("toolsets", ToolsetsContent(Toolsets(ms)))];
    GetAt(members, 4, "toolsets");
    ToolsetsContentEntries(ms);
    CObj(members)
  }

  lemma ToolsetsContentEntries(ms: seq<MethodMetadata>)
    ensures var order, ts := FirstSeen(Categories(ms)), ToolsetsContent(Toolsets(ms));
      ts.CObj? && |ts.members| == |order| &&
      forall i :: 0 <= i < |order| ==>
        ts.members[i] == ("$rc:" + CategoryKey(i + 1), CObj([("tools", StrList(ToolsIn(ms, order[i])))]))
  {
  }

  lemma CategoriesStep(ms: seq<MethodMetadata>, k: nat)
    requires k < |ms|
    ensures Categories(ms[..k + 1]) == Categories(ms[..k]) + [ms[k].toolCategory]
  {
  }

  lemma ToolsInStep(ms: seq<MethodMetadata>, k: nat, c: string)
    requires k < |ms|
    ensures ToolsIn(ms[..k + 1], c) == ToolsIn(ms[..k], c) + (if ms[k].toolCategory == c then [ToolName(ms[k])] else [])
  {
    assert ms[..k + 1][..k] == ms[..k];
  }

  /** A category none of the methods has lists no tools. */
  lemma {:induction false} ToolsInAbsent(ms: seq<MethodMetadata>, c: string)
    requires c !in Categories(ms)
    ensures ToolsIn(ms, c) == []
  {
    if ms != [] {
      assert Categories(ms[..|ms| - 1]) == Categories(ms)[..|ms| - 1];
      ToolsInAbsent(ms[..|ms| - 1], c);
    }
  }

  /** The categories first seen after method `k`: unchanged when its
      category is known, that category added last when it is new. */
  lemma FirstSeenStep(ms: seq<MethodMetadata>, k: nat)
    requires k < |ms|
    ensures var c, order := ms[k].toolCategory, FirstSeen(Categories(ms[..k]));
      FirstSeen(Categories(ms[..k + 1])) == if c in Categories(ms[..k]) then order else order + [c]
  {
    var xs := Categories(ms[..k]);
    CategoriesStep(ms, k);
    assert (xs + [ms[k].toolCategory])[..|xs|] == xs;
  }

  lemma ToolsInOther(ms: seq<MethodMetadata>, k: nat, x: string)
    requires k < |ms| && x != ms[k].toolCategory
    ensures ToolsIn(ms[..k + 1], x) == ToolsIn(ms[..k], x)
  {
    ToolsInStep(ms, k, x);
    assert ToolsIn(ms[..k + 1], x) == ToolsIn(ms[..k], x) + [];
  }

  /** One toolset after method `k`: the one of its category gains the tool,
      the others are unchanged. */
  lemma ToolsetEntryStep(ms: seq<MethodMetadata>, k: nat, i: nat)
    requires k < |ms| && i < |FirstSeen(Categories(ms[..k + 1]))|
    ensures var c, order' := ms[k].toolCategory, FirstSeen(Categories(ms[..k + 1]));
      Toolsets(ms[..k + 1])[i] ==
        (CategoryRef(i + 1), ToolsIn(ms[..k], order'[i]) + (if order'[i] == c then [ToolName(ms[k])] else []))
  {
    var c, order' := ms[k].toolCategory, FirstSeen(Categories(ms[..k + 1]));
    if order'[i] == c {
      ToolsInStep(ms, k, c);
    } else {
      ToolsInOther(ms, k, order'[i]);
      assert ToolsIn(ms[..k], order'[i]) + [] == ToolsIn(ms[..k], order'[i]);
    }
  }

  /** Before method `k`, the toolset of its category (an empty one added
      last when the category is new) sits at its first-seen position. */
  lemma ToolsetFound(ms: seq<MethodMetadata>, k: nat, ts0: Dict<string, seq<string>>)
    requires k < |ms|
    requires ts0 == if ms[k].toolCategory in Categories(ms[..k]) then Toolsets(ms[..k])
                    else Toolsets(ms[..k]) + [(CategoryRef(|Toolsets(ms[..k])| + 1), [])]
    ensures var c := ms[k].toolCategory;
      var j := IndexOf(FirstSeen(Categories(ms[..k + 1])), c);
      j < |ts0| && ts0[j] == (CategoryRef(j + 1), ToolsIn(ms[..k], c))
  {
    if ms[k].toolCategory in Categories(ms[..k]) {
      KnownToolsetAt(ms, k);
    } else {
      NewToolsetAt(ms, k);
    }
  }

  /** The toolset of a new category goes last, with no tools yet. */
  lemma NewToolsetAt(ms: seq<MethodMetadata>, k: nat)
    requires k < |ms| && ms[k].toolCategory !in Categories(ms[..k])
    ensures var c := ms[k].toolCategory;
      IndexOf(FirstSeen(Categories(ms[..k + 1])), c) == |Toolsets(ms[..k])| && ToolsIn(ms[..k], c) == []
  {
    var c := ms[k].toolCategory;
    FirstSeenStep(ms, k);
    IndexOfAppended(FirstSeen(Categories(ms[..k])), c);
    ToolsInAbsent(ms[..k], c);
    ToolsetKeys(ms[..k]);
  }

  /** Entry `i` of the toolsets before and after method `k`. */
  lemma ToolsetEntryUpdated(ms: seq<MethodMetadata>, k: nat, ts0: Dict<string, seq<string>>, i: nat)
    requires k < |ms|
    requires ts0 == if ms[k].toolCategory in Categories(ms[..k]) then Toolsets(ms[..k])
                    else Toolsets(ms[..k]) + [(CategoryRef(|Toolsets(ms[..k])| + 1), [])]
    requires i < |ts0|
    ensures var c := ms[k].toolCategory;
      var j := IndexOf(FirstSeen(Categories(ms[..k + 1])), c);
      i < |Toolsets(ms[..k + 1])| &&
      Toolsets(ms[..k + 1])[i] == if i == j then (CategoryRef(j + 1), ToolsIn(ms[..k], c) + [ToolName(ms[k])]) else ts0[i]
  {
    var c := ms[k].toolCategory;
    ToolsetsLength(ms, k, ts0);
    var order' := FirstSeen(Categories(ms[..k + 1]));
    var j := IndexOf(order', c);
    ToolsetEntryStep(ms, k, i);
    if i != j {
      OtherCategoryBefore(ms, k, i);
      ToolsetEntry(ms[..k], i);
      assert ToolsIn(ms[..k], order'[i]) + [] == ToolsIn(ms[..k], order'[i]);
    }
  }

  /** A toolset other than that of method `k`'s category was there before it,
      at the same place. */
  lemma OtherCategoryBefore(ms: seq<MethodMetadata>, k: nat, i: nat)
    requires k < |ms|
    requires i < |FirstSeen(Categories(ms[..k + 1]))|
    requires i != IndexOf(FirstSeen(Categories(ms[..k + 1])), ms[k].toolCategory)
    ensures var order, order' := FirstSeen(Categories(ms[..k])), FirstSeen(Categories(ms[..k + 1]));
      i < |order| && order'[i] == order[i] && order[i] != ms[k].toolCategory
  {
    var c := ms[k].toolCategory;
    FirstSeenStep(ms, k);
    var order, order' := FirstSeen(Categories(ms[..k])), FirstSeen(Categories(ms[..k + 1]));
    var j := IndexOf(order', c);
    if c !in Categories(ms[..k]) {
      IndexOfAppended(order, c);
    }
    assert j < |order'| ==> order'[j] == c;
  }

  /** The toolsets after method `k` are those before it, with an empty
      toolset added last when its category is new, and the list of its
      category replaced by that list with the tool appended. */
  lemma ToolsetsUpdated(ms: seq<MethodMetadata>, k: nat, ts0: Dict<string, seq<string>>, j: nat)
    requires k < |ms|
    requires ts0 == if ms[k].toolCategory in Categories(ms[..k]) then Toolsets(ms[..k])
                    else Toolsets(ms[..k]) + [(CategoryRef(|Toolsets(ms[..k])| + 1), [])]
    requires j == IndexOf(FirstSeen(Categories(ms[..k + 1])), ms[k].toolCategory)
    ensures j < |ts0| &&
      ts0[j := (CategoryRef(j + 1), ToolsIn(ms[..k], ms[k].toolCategory) + [ToolName(ms[k])])] == Toolsets(ms[..k + 1])
  {
    var c := ms[k].toolCategory;
    ToolsetFound(ms, k, ts0);
    ToolsetsLength(ms, k, ts0);
    var e := (CategoryRef(j + 1), ToolsIn(ms[..k], c) + [ToolName(ms[k])]);
    var ts' := Toolsets(ms[..k + 1]);
    forall i | 0 <= i < |ts0| ensures ts'[i] == if i == j then e else ts0[i] {
      ToolsetEntryUpdated(ms, k, ts0, i);
    }
    SeqUpdated(ts0, ts', j, e);
  }

  lemma ToolsetsLength(ms: seq<MethodMetadata>, k: nat, ts0: Dict<string, seq<string>>)
    requires k < |ms|
    requires ts0 == if ms[k].toolCategory in Categories(ms[..k]) then Toolsets(ms[..k])
                    else Toolsets(ms[..k]) + [(CategoryRef(|Toolsets(ms[..k])| + 1), [])]
    ensures |Toolsets(ms[..k + 1])| == |ts0|
  {
    FirstSeenStep(ms, k);
  }

  /** A sequence that agrees with `a` except at `j`, where it holds `e`. */
  lemma SeqUpdated<T>(a: seq<T>, b: seq<T>, j: nat, e: T)
    requires |a| == |b| && j < |a|
    requires forall i :: 0 <= i < |a| ==> b[i] == if i == j then e else a[i]
    ensures a[j := e] == b
  {
  }

  /** The toolsets before the j-th have other keys. */
  lemma ToolsetKeysBefore(ms: seq<MethodMetadata>, j: nat)
    requires j < |Toolsets(ms)|
    ensures Toolsets(ms)[j].0 == CategoryRef(j + 1)
    ensures forall i :: 0 <= i < j ==> Toolsets(ms)[i].0 != CategoryRef(j + 1)
  {
    var ts := Toolsets(ms);
    forall i | 0 <= i < j ensures ts[i].0 != CategoryRef(j + 1) {
      if ts[i].0 == CategoryRef(j + 1) { CategoryRefInjective(i + 1, j + 1); }
    }
  }

  /** Method `k` of a known category: its toolset `ts` is found under its
      number `key` and the tool is appended to its list, giving `ts'`. */
  lemma ToolsetsStepKnown(ms: seq<MethodMetadata>, k: nat, ts: Dict<string, seq<string>>,
                          ts': Dict<string, seq<string>>, key: string)
    requires k < |ms| && ms[k].toolCategory in Categories(ms[..k])
    requires ts == Toolsets(ms[..k]) && ts' == Toolsets(ms[..k + 1])
    requires key == CategoryRef(IndexOf(FirstSeen(Categories(ms[..k])), ms[k].toolCategory) + 1)
    ensures Get(ts, key) == Some(ToolsIn(ms[..k], ms[k].toolCategory))
    ensures Set(ts, key, ToolsIn(ms[..k], ms[k].toolCategory) + [ToolName(ms[k])]) == ts'
  {
    var c := ms[k].toolCategory;
    var j := IndexOf(FirstSeen(Categories(ms[..k])), c);
    var v := ToolsIn(ms[..k], c) + [ToolName(ms[k])];
    assert j < |ts| && ts[j].1 == ToolsIn(ms[..k], c) &&
      ts[j := (key, v)] == ts' by {
      KnownToolsetAt(ms, k);
      ToolsetsUpdated(ms, k, ts, j);
    }
    assert forall i :: 0 <= i < |ts| ==> ts[i].0 == CategoryRef(i + 1) by {
      ToolsetKeys(ms[..k]);
    }
    assert key == CategoryRef(j + 1);
    KnownKeyUpdated(ts, ts', j, key, v);
  }

  /** The toolset numbered `j + 1` is found and replaced at position `j`. */
  lemma KnownKeyUpdated(ts: Dict<string, seq<string>>, ts': Dict<string, seq<string>>, j: nat, key: string, v: seq<string>)
    requires forall i :: 0 <= i < |ts| ==> ts[i].0 == CategoryRef(i + 1)
    requires j < |ts| && key == CategoryRef(j + 1) && ts[j := (key, v)] == ts'
    ensures Get(ts, key) == Some(ts[j].1) && Set(ts, key, v) == ts'
  {
    forall i | 0 <= i < j ensures ts[i].0 != key {
      if ts[i].0 == key { CategoryRefInjective(i + 1, j + 1); }
    }
    SetAt(ts, j, key, v);
  }

  /** The toolset of a known category is at its first-seen place, before and
      after method `k`. */
  lemma KnownToolsetAt(ms: seq<MethodMetadata>, k: nat)
    requires k < |ms| && ms[k].toolCategory in Categories(ms[..k])
    ensures var c := ms[k].toolCategory;
      var j := IndexOf(FirstSeen(Categories(ms[..k])), c);
      j == IndexOf(FirstSeen(Categories(ms[..k + 1])), c) &&
      j < |Toolsets(ms[..k])| && Toolsets(ms[..k])[j] == (CategoryRef(j + 1), ToolsIn(ms[..k], c))
  {
    var c, order := ms[k].toolCategory, FirstSeen(Categories(ms[..k]));
    assert FirstSeen(Categories(ms[..k + 1])) == order by { FirstSeenStep(ms, k); }
    ToolsetOfKnownCategory(ms[..k], c);
  }

  /** The toolset of a category some method has sits at the category's
      first-seen place, and lists that category's tools. */
  lemma ToolsetOfKnownCategory(ms: seq<MethodMetadata>, c: string)
    requires c in Categories(ms)
    ensures var j := IndexOf(FirstSeen(Categories(ms)), c);
      j < |Toolsets(ms)| && Toolsets(ms)[j] == (CategoryRef(j + 1), ToolsIn(ms, c))
  {
    var order := FirstSeen(Categories(ms));
    var j := IndexOf(order, c);
    assert j < |order| && order[j] == c;
    assert j < |Toolsets(ms)| && Toolsets(ms)[j] == (CategoryRef(j + 1), ToolsIn(ms, order[j])) by {
      ToolsetEntry(ms, j);
    }
  }

  /** Method `k` of a new category: an empty toolset is added last to `ts`
      under the next number `key`, and the tool is appended to it, giving `ts'`. */
  lemma ToolsetsStepNew(ms: seq<MethodMetadata>, k: nat, ts: Dict<string, seq<string>>,
                        ts': Dict<string, seq<string>>, key: string)
    requires k < |ms| && ms[k].toolCategory !in Categories(ms[..k])
    requires ts == Toolsets(ms[..k]) && ts' == Toolsets(ms[..k + 1])
    requires key == CategoryRef(|FirstSeen(Categories(ms[..k]))| + 1)
    ensures Get(ts, key).None? && Set(ts, key, []) == ts + [(key, [])]
    ensures Get(ts + [(key, [])], key) == Some([])
    ensures Set(ts + [(key, [])], key, [] + [ToolName(ms[k])]) == ts'
  {
    assert forall i :: 0 <= i < |ts| ==> ts[i].0 == CategoryRef(i + 1) by {
      ToolsetKeys(ms[..k]);
    }
    assert key == CategoryRef(|ts| + 1) by {
      ToolsetKeys(ms[..k]);
    }
    assert (ts + [(key, [])])[|ts| := (key, [] + [ToolName(ms[k])])] == ts' by {
      NewToolsetFilled(ms, k, ts + [(key, [])], |ts|);
    }
    NewKeyFilled(ts, ts', key, ToolName(ms[k]));
  }

  /** A toolset added last under the next number, then given its first tool. */
  lemma NewKeyFilled(ts: Dict<string, seq<string>>, ts': Dict<string, seq<string>>, key: string, name: string)
    requires forall i :: 0 <= i < |ts| ==> ts[i].0 == CategoryRef(i + 1)
    requires key == CategoryRef(|ts| + 1)
    requires (ts + [(key, [])])[|ts| := (key, [] + [name])] == ts'
    ensures Get(ts, key).None? && Set(ts, key, []) == ts + [(key, [])]
    ensures Get(ts + [(key, [])], key) == Some([])
    ensures Set(ts + [(key, [])], key, [] + [name]) == ts'
  {
    NextKeyAppended(ts);
    SetLast(ts, key, [], [] + [name]);
    assert (ts + [(key, [])])[|ts| := (key, [] + [name])] == ts + [(key, [] + [name])];
  }

  /** With the empty toolset of method `k`'s new category added last, filling
      it with the tool gives the toolsets after method `k`. */
  lemma NewToolsetFilled(ms: seq<MethodMetadata>, k: nat, ts0: Dict<string, seq<string>>, j: nat)
    requires k < |ms| && ms[k].toolCategory !in Categories(ms[..k])
    requires j == |Toolsets(ms[..k])|
    requires ts0 == Toolsets(ms[..k]) + [(CategoryRef(j + 1), [])]
    ensures j < |ts0| && ts0[j := (CategoryRef(j + 1), [] + [ToolName(ms[k])])] == Toolsets(ms[..k + 1])
  {
    var c := ms[k].toolCategory;
    FirstSeenStep(ms, k);
    IndexOfAppended(FirstSeen(Categories(ms[..k])), c);
    ToolsInAbsent(ms[..k], c);
    ToolsetsUpdated(ms, k, ts0, j);
  }

  /** The toolsets are keyed by the references to labels 1, 2, ... */
  lemma ToolsetKeys(ms: seq<MethodMetadata>)
    ensures |Toolsets(ms)| == |FirstSeen(Categories(ms))|
    ensures forall i :: 0 <= i < |Toolsets(ms)| ==> Toolsets(ms)[i].0 == CategoryRef(i + 1)
  {
  }

  lemma NextKeyAppended(ts: Dict<string, seq<string>>)
    requires forall i :: 0 <= i < |ts| ==> ts[i].0 == CategoryRef(i + 1)
    ensures var key := CategoryRef(|ts| + 1);
      Get(ts, key).None? && Set(ts, key, []) == ts + [(key, [])] && Get(ts + [(key, [])], key) == Some([])
  {
    var key := CategoryRef(|ts| + 1);
    forall i | 0 <= i < |ts| ensures ts[i].0 != key {
      if ts[i].0 == key { CategoryRefInjective(i + 1, |ts| + 1); }
    }
    GetAbsent(ts, key);
    SetAbsent(ts, key, []);
    SetLast(ts, key, [], []);
  }

  /** The label of a new category goes last in the toolbox `.rc` map: its key
      is neither `title`, `description` nor an earlier category's key. */
  lemma ToolboxRcStep(displayName: string, description: string, ms: seq<MethodMetadata>, k: nat)
    requires k < |ms|
    ensures ms[k].toolCategory in Categories(ms[..k]) ==>
      ToolboxRc(displayName, description, ms[..k + 1]) == ToolboxRc(displayName, description, ms[..k])
    ensures ms[k].toolCategory !in Categories(ms[..k]) ==>
      ToolboxRc(displayName, description, ms[..k + 1]) ==
      Set(ToolboxRc(displayName, description, ms[..k]), CategoryKey(|FirstSeen(Categories(ms[..k]))| + 1), ms[k].toolCategory)
  {
    FirstSeenStep(ms, k);
    if ms[k].toolCategory !in Categories(ms[..k]) {
      LabelAppended(displayName, description, FirstSeen(Categories(ms[..k])), ms[k].toolCategory);
    }
  }

  /** A new category's label goes last in the toolbox `.rc` map, under the
      next number. */
  lemma LabelAppended(displayName: string, description: string, order: seq<string>, c: string)
    ensures Set([("title", displayName), ("description", description)] + CategoryLabels(order), CategoryKey(|order| + 1), c) ==
      [("title", displayName), ("description", description)] + CategoryLabels(order + [c])
  {
    var rc := [("title", displayName), ("description", description)] + CategoryLabels(order);
    var n := |order| + 1;
    assert CategoryLabels(order + [c]) == CategoryLabels(order) + [(CategoryKey(n), c)];
    NextLabelAbsent(displayName, description, order);
    SetAbsent(rc, CategoryKey(n), c);
  }

  /** The next category number has no label yet. */
  lemma NextLabelAbsent(displayName: string, description: string, order: seq<string>)
    ensures CategoryKey(|order| + 1) !in Keys([("title", displayName), ("description", description)] + CategoryLabels(order))
  {
    var rc := [("title", displayName), ("description", description)] + CategoryLabels(order);
    var n := |order| + 1;
    forall i | 0 <= i < |rc| ensures rc[i].0 != CategoryKey(n) {
      if i < 2 {
        CategoryKeyNotTitle(n);
      } else {
        assert rc[i] == CategoryLabels(order)[i - 2];
        LabelKeyOther(order, i - 2, n);
      }
    }
  }

  /** Label `i + 1` is under no other number's key. */
  lemma LabelKeyOther(order: seq<string>, i: nat, n: nat)
    requires i < |order| && i + 1 != n
    ensures CategoryLabels(order)[i].0 != CategoryKey(n)
  {
    if CategoryLabels(order)[i].0 == CategoryKey(n) { CategoryKeyInjective(i + 1, n); }
  }

  lemma CategoryKeyNotTitle(n: nat)
    ensures CategoryKey(n) != "title" && CategoryKey(n) != "description"
  {
    assert CategoryKey(n)[0] == 'p';
  }

  /** `_CreateContentFiles`: the `toolbox.content` and `toolbox.content.rc`
      dictionaries, and the files of each tool in method order. */
  method CreateContentFiles(displayName: string, description: string, alias: string, methods: seq<MethodMetadata>)
    returns (content: Content, rc: Content, tools: seq<ToolFiles>)
    ensures content == ToolboxContent(alias, methods)
    ensures rc == RcContent(ToolboxRc(displayName, description, methods))
    ensures |tools| == |methods| && forall i :: 0 <= i < |methods| ==> tools[i] == ToolFilesOf(methods[i])
  {
    var rcMap: Dict<string, string> := [("title", displayName), ("description", description)];
    var toolsets: Dict<string, seq<string>> := [];
    var tsNums: map<string, nat> := map[];
    var lastTSNum: nat := 0;
    tools := [];
    for k := 0 to |methods|
      invariant Numbered(tsNums, lastTSNum, FirstSeen(Categories(methods[..k])))
      invariant rcMap == ToolboxRc(displayName, description, methods[..k])
      invariant toolsets == Toolsets(methods[..k])
      invariant tools == Map(ToolFilesOf, methods[..k])
    {
      var mm := methods[k];
      rcMap, toolsets, tsNums, lastTSNum := AddTool(displayName, description, methods, k, rcMap, toolsets, tsNums, lastTSNum);
      var files := CreateToolFiles(mm);
      MapStep(ToolFilesOf, methods, k);
      tools := tools + [files];
    }
    assert methods[..|methods|] == methods;
    content := CObj([("version", CStr("1.0")), ("alias", CStr(alias)), ("displayname", CStr("$rc:title")),
                     ("description", CStr("$rc:description")), ("toolsets", ToolsetsContent(toolsets))]);
    rc := RcContent(rcMap);
  }

  /** `_CreateToolContentFile` and `_CreateToolPythonFiles` for one method. */
  method CreateToolFiles(mm: MethodMetadata) returns (files: ToolFiles)
    ensures files == ToolFilesOf(mm)
  {
    var toolName := LastSegment(mm.className, '.') + mm.name;
    var toolContent, toolRc := CreateToolContentFile(mm);
    files := ToolFiles(toolName + ".tool", toolContent, toolRc, ExecuteScriptOf(mm));
  }

  /** The numbering of toolset categories in `_CreateContentFiles`: a
      category met before keeps its number, a new one takes the next. */
  method NumberToolset(ghost methods: seq<MethodMetadata>, ghost k: nat, c: string,
                       tsNums: map<string, nat>, lastTSNum: nat)
    returns (tsNums': map<string, nat>, lastTSNum': nat, isNew: bool)
    requires k < |methods| && c == methods[k].toolCategory
    requires Numbered(tsNums, lastTSNum, FirstSeen(Categories(methods[..k])))
    ensures Numbered(tsNums', lastTSNum', FirstSeen(Categories(methods[..k + 1])))
    ensures isNew <==> c !in Categories(methods[..k])
    ensures var order := FirstSeen(Categories(methods[..k]));
      c in tsNums' && tsNums'[c] == if isNew then |order| + 1 else IndexOf(order, c) + 1
  {
    CategoriesStep(methods, k);
    NumberedStep(tsNums, lastTSNum, Categories(methods[..k]), c);
    isNew := c !in tsNums;
    if isNew {
      lastTSNum' := lastTSNum + 1;
      tsNums' := tsNums[c := lastTSNum'];
    } else {
      tsNums', lastTSNum' := tsNums, lastTSNum;
      var order := FirstSeen(Categories(methods[..k]));
      var j := IndexOf(order, c);
      assert tsNums[order[j]] == j + 1;
    }
  }

  /** Appending the tool of method `k` to the toolset under `tsKey`, creating
      that toolset empty first when it is missing. */
  method AppendTool(ghost methods: seq<MethodMetadata>, ghost k: nat, toolsets: Dict<string, seq<string>>,
                    tsKey: string, toolName: string)
    returns (toolsets': Dict<string, seq<string>>)
    requires k < |methods| && toolsets == Toolsets(methods[..k]) && toolName == ToolName(methods[k])
    requires var c, order := methods[k].toolCategory, FirstSeen(Categories(methods[..k]));
      tsKey == CategoryRef(if c in Categories(methods[..k]) then IndexOf(order, c) + 1 else |order| + 1)
    ensures toolsets' == Toolsets(methods[..k + 1])
  {
    ghost var known := methods[k].toolCategory in Categories(methods[..k]);
    if known {
      ToolsetsStepKnown(methods, k, toolsets, Toolsets(methods[..k + 1]), tsKey);
    } else {
      ToolsetsStepNew(methods, k, toolsets, Toolsets(methods[..k + 1]), tsKey);
    }
    toolsets' := toolsets;
    if Get(toolsets', tsKey).None? {
      toolsets' := Set(toolsets', tsKey, []);
    }
    var tools := Get(toolsets', tsKey).value;
    toolsets' := Set(toolsets', tsKey, tools + [toolName]);
  }

  /** The body of the loop of `_CreateContentFiles` for method `k`: number
      its category when new, label it, and append the tool to its toolset. */
  method AddTool(ghost displayName: string, ghost description: string, methods: seq<MethodMetadata>, k: nat,
                 rcMap: Dict<string, string>, toolsets: Dict<string, seq<string>>,
                 tsNums: map<string, nat>, lastTSNum: nat)
    returns (rcMap': Dict<string, string>, toolsets': Dict<string, seq<string>>,
             tsNums': map<string, nat>, lastTSNum': nat)
    requires k < |methods|
    requires Numbered(tsNums, lastTSNum, FirstSeen(Categories(methods[..k])))
    requires rcMap == ToolboxRc(displayName, description, methods[..k])
    requires toolsets == Toolsets(methods[..k])
    ensures Numbered(tsNums', lastTSNum', FirstSeen(Categories(methods[..k + 1])))
    ensures rcMap' == ToolboxRc(displayName, description, methods[..k + 1])
    ensures toolsets' == Toolsets(methods[..k + 1])
  {
    var mm := methods[k];
    var c := mm.toolCategory;
    var isNew;
    tsNums', lastTSNum', isNew := NumberToolset(methods, k, c, tsNums, lastTSNum);
    ToolboxRcStep(displayName, description, methods, k);
    rcMap' := rcMap;
    if isNew {
      rcMap' := Set(rcMap, CategoryKey(tsNums'[c]), c);
    }
    var tsKey := CategoryRef(tsNums'[c]);
    var toolName := LastSegment(mm.className, '.') + mm.name;
    toolsets' := AppendTool(methods, k, toolsets, tsKey, toolName);
  }

  // ---------------------------------------------------------------------
  // What the toolbox lists

  /** The title, the description, and the k-th category of `order` under
      `param.category<k>`, with no other number labelled. */
  lemma ToolboxLabels(displayName: string, description: string, order: seq<string>)
    ensures var rc := [("title", displayName), ("description", description)] + CategoryLabels(order);
      UniqueKeys(rc) &&
      Get(rc, "title") == Some(displayName) && Get(rc, "description") == Some(description) &&
      (forall i :: 0 <= i < |order| ==> Get(rc, CategoryKey(i + 1)) == Some(order[i])) &&
      (forall n: nat :: n == 0 || n > |order| ==> Get(rc, CategoryKey(n)) == None)
  {
    var base := [("title", displayName), ("description", description)];
    var labels := CategoryLabels(order);
    var rc := base + labels;
    LabelKeysUnique(displayName, description, order);
    forall n: nat ensures Get(rc, CategoryKey(n)) == if 0 < n <= |order| then Some(order[n - 1]) else None {
      assert CategoryKey(n)[0] == 'p';
      GetAppend(base, labels, CategoryKey(n));
      LabelLookup(order, n);
    }
    GetAppend(base, labels, "title");
    GetAppend(base, labels, "description");
  }

  /** The toolbox `.rc` keys are distinct. */
  lemma LabelKeysUnique(displayName: string, description: string, order: seq<string>)
    ensures UniqueKeys([("title", displayName), ("description", description)] + CategoryLabels(order))
  {
    var rc := [("title", displayName), ("description", description)] + CategoryLabels(order);
    forall i, j | 0 <= i < j < |rc| ensures rc[i].0 != rc[j].0 {
      if i >= 2 {
        assert rc[i] == CategoryLabels(order)[i - 2];
        assert rc[j] == CategoryLabels(order)[j - 2];
        LabelKeyOther(order, i - 2, j - 1);
      } else if j >= 2 {
        assert rc[j] == CategoryLabels(order)[j - 2];
        CategoryKeyNotTitle(j - 1);
      }
    }
  }

  lemma LabelLookup(order: seq<string>, n: nat)
    ensures Get(CategoryLabels(order), CategoryKey(n)) == if 0 < n <= |order| then Some(order[n - 1]) else None
  {
    var labels := CategoryLabels(order);
    forall i | 0 <= i < |labels| && i + 1 != n ensures labels[i].0 != CategoryKey(n) {
      if labels[i].0 == CategoryKey(n) { CategoryKeyInjective(i + 1, n); }
    }
    if 0 < n <= |order| {
      GetAt(labels, n - 1, CategoryKey(n));
    } else {
      GetAbsent(labels, CategoryKey(n));
    }
  }

  /** The toolset of category `c` is found under the number of `c` among the
      categories first seen, and lists the tools of `c`. */
  lemma ToolsetOfCategory(ms: seq<MethodMetadata>, c: string, i: nat)
    requires i < |ms| && ms[i].toolCategory == c
    ensures Get(Toolsets(ms), CategoryRef(IndexOf(FirstSeen(Categories(ms)), c) + 1)) == Some(ToolsIn(ms, c))
  {
    CategoryFirstSeen(ms, i);
    var j := IndexOf(FirstSeen(Categories(ms)), c);
    ToolsetEntry(ms, j);
    ToolsetKeysBefore(ms, j);
    GetAt(Toolsets(ms), j, CategoryRef(j + 1));
  }

  lemma CategoryFirstSeen(ms: seq<MethodMetadata>, i: nat)
    requires i < |ms|
    ensures ms[i].toolCategory in FirstSeen(Categories(ms))
  {
    assert Categories(ms)[i] == ms[i].toolCategory;
  }

  lemma ToolsetEntry(ms: seq<MethodMetadata>, j: nat)
    requires j < |FirstSeen(Categories(ms))|
    ensures var order := FirstSeen(Categories(ms));
      |Toolsets(ms)| == |order| && Toolsets(ms)[j] == (CategoryRef(j + 1), ToolsIn(ms, order[j]))
  {
  }

  /** Every method's tool is listed in the toolset of its category. */
  lemma {:induction false} ToolsInHas(ms: seq<MethodMetadata>, i: nat)
    requires i < |ms|
    ensures ToolName(ms[i]) in ToolsIn(ms, ms[i].toolCategory)
  {
    var init := ms[..|ms| - 1];
    if i < |ms| - 1 {
      ToolsInHas(init, i);
    }
  }

  /** A toolset lists its tools in method order: the methods up to `k` give a
      prefix of each list. */
  lemma {:induction false} ToolsInPrefix(ms: seq<MethodMetadata>, k: nat, c: string)
    requires k <= |ms|
    ensures ToolsIn(ms[..k], c) <= ToolsIn(ms, c)
    decreases |ms|
  {
    if k < |ms| {
      var init := ms[..|ms| - 1];
      assert init[..k] == ms[..k];
      ToolsInPrefix(init, k, c);
    } else {
      assert ms[..k] == ms;
    }
  }

  // ---------------------------------------------------------------------
  // GenerateToolboxForPackage: modules and the temporary directory

  /** The modules kept for the toolbox: those whose last dotted segment does
      not start with `_`, in the order found. */
  function PublicModules(names: seq<string>): (r: seq<string>)
    ensures forall n :: n in r <==> n in names && !StartsWith(LastSegment(n, '.'), "_")
    ensures |r| <= |names|
  {
    if names == [] then []
    else
      var init, n := names[..|names| - 1], names[|names| - 1];
      assert names == init + [n];
      PublicModules(init) + (if StartsWith(LastSegment(n, '.'), "_") then [] else [n])
  }

  /** A name the pattern `<base>_tmp[0-9][0-9][0-9][0-9]` matches. */
  predicate IsTempDirName(base: string, name: string) {
    |name| == |base| + 8 && name[..|base| + 4] == base + "_tmp" && AllDigits(name[|base| + 4..])
  }

  /** `base + '_tmp%04i' % n`: below 10000 a name of the pattern, carrying `n`. */
  function TempDirName(base: string, n: nat): (r: string)
    ensures StartsWith(r, base + "_tmp") && AllDigits(r[|base| + 4..]) && DigitsValue(r[|base| + 4..]) == n
    ensures n < 10000 ==> IsTempDirName(base, r) && TempNumber(base, r) == n
  {
    Pad4Value(n);
    assert (base + "_tmp" + Pad4(n))[|base| + 4..] == Pad4(n);
    base + "_tmp" + Pad4(n)
  }

  /** The number a temporary directory's name ends in. */
  function TempNumber(base: string, name: string): nat
    requires IsTempDirName(base, name)
  {
    DigitsValue(name[|base| + 4..])
  }

  /** The number of the next temporary directory: the number after the last
      existing one, read from what follows its last `_` past `tmp`, or 0 when
      there is none. */
  function NextTempNumber(base: string, existing: seq<string>): (n: nat)
    requires forall i :: 0 <= i < |existing| ==> IsTempDirName(base, existing[i])
    ensures existing == [] ==> n == 0
    ensures existing != [] ==>
      IsTempDirName(base, existing[|existing| - 1]) && n == TempNumber(base, existing[|existing| - 1]) + 1
  {
    if existing == [] then 0
    else
      var name := existing[|existing| - 1];
      assert IsTempDirName(base, name);
      var d := name[|base| + 4..];
      assert name == base + ['_'] + ("tmp" + d) by {
        assert name == name[..|base| + 4] + d;
      }
      assert '_' !in "tmp" + d by {
        assert forall j :: 0 <= j < |d| ==> IsDigit(d[j]);
      }
      LastSegmentAfter(base, "tmp" + d, '_');
      assert LastSegment(name, '_')[3..] == d;
      ParseDigits(d);
      ParseInt(LastSegment(name, '_')[3..]).value + 1
  }

  /** Sorting temporary directories by name sorts them by number. */
  lemma TempNumberOrder(base: string, x: string, y: string)
    requires IsTempDirName(base, x) && IsTempDirName(base, y) && LexLe(x, y)
    ensures TempNumber(base, x) <= TempNumber(base, y)
  {
    var dx, dy := x[|base| + 4..], y[|base| + 4..];
    assert x == (base + "_tmp") + dx by { assert x == x[..|base| + 4] + dx; }
    assert y == (base + "_tmp") + dy by { assert y == y[..|base| + 4] + dy; }
    LexLeDropPrefix(base + "_tmp", dx, dy);
    LexLeDigits(dx, dy);
  }

  /** The temporary directory is new: when the existing names come sorted,
      the next number is above every existing one, so its name is none of
      them. */
  lemma TempDirIsNew(base: string, existing: seq<string>)
    requires forall i :: 0 <= i < |existing| ==> IsTempDirName(base, existing[i])
    requires forall i, j :: 0 <= i < j < |existing| ==> LexLe(existing[i], existing[j])
    ensures TempDirName(base, NextTempNumber(base, existing)) !in existing
  {
    if existing != [] {
      var n := NextTempNumber(base, existing);
      var last := existing[|existing| - 1];
      forall i | 0 <= i < |existing| ensures existing[i] != TempDirName(base, n) {
        TempNameBelowNext(base, existing[i], last, n);
      }
    }
  }

  /** A temporary directory sorted no later than the last one is not the
      one numbered after the last. */
  lemma TempNameBelowNext(base: string, x: string, last: string, n: nat)
    requires IsTempDirName(base, x) && IsTempDirName(base, last)
    requires x == last || LexLe(x, last)
    requires n == TempNumber(base, last) + 1
    ensures x != TempDirName(base, n)
  {
    if x == TempDirName(base, n) {
      if x != last {
        TempNumberOrder(base, x, last);
      }
    }
  }

  // ---------------------------------------------------------------------
  // ExecuteMethodAsGeoprocessingTool

  /** A parameter of the running tool: its name and the text the
      geoprocessor gives for it. */
  datatype ToolParameter = ToolParameter(name: string, text: string)

  /** What the tool passes for an argument: the geoprocessor attribute reached
      by a dotted path, a Python value, or what the argument's type parses
      from a parameter's text (given the display name and the 1-based
      parameter number, for its messages). */
  datatype ArgValue =
    | FromGeoprocessor(attributes: seq<string>)
    | Given(value: PyObject)
    | Parsed(typ: TypeMetadata, text: string, displayName: string, number: nat)

  function Indexed(params: seq<ToolParameter>): (r: seq<(string, nat)>)
    ensures |r| == |params| && forall i :: 0 <= i < |params| ==> r[i] == (params[i].name, i)
  {
    seq(|params|, i requires 0 <= i < |params| => (params[i].name, i))
  }

  /** The parameter numbers by name, later parameters winning. */
  function ParamNumbers(params: seq<ToolParameter>): Dict<string, nat> {
    FromPairs(Indexed(params))
  }

  /** The position of the last parameter named `name`, if any. */
  function ParamIndex(params: seq<ToolParameter>, name: string): (r: Option<nat>)
    ensures r.None? <==> forall j :: 0 <= j < |params| ==> params[j].name != name
    ensures r.Some? ==>
      r.value < |params| && params[r.value].name == name &&
      forall j :: r.value < j < |params| ==> params[j].name != name
  {
    if params == [] then None
    else if params[|params| - 1].name == name then Some(|params| - 1)
    else ParamIndex(params[..|params| - 1], name)
  }

  /** Looking a name up in the parameter numbers finds its last parameter. */
  lemma ParamNumbersGet(params: seq<ToolParameter>, name: string)
    ensures Get(ParamNumbers(params), name) == ParamIndex(params, name)
  {
    UpdateGet([], Indexed(params), name);
    LastValueIndexed(params, name);
  }

  lemma {:induction false} LastValueIndexed(params: seq<ToolParameter>, name: string)
    ensures LastValue(Indexed(params), name) == ParamIndex(params, name)
  {
    if params != [] {
      var n := |params| - 1;
      assert Indexed(params)[..n] == Indexed(params[..n]);
      LastValueIndexed(params[..n], name);
    }
  }

  /** The value of a displayed argument: an unset parameter (`#` or empty)
      gives None when the type allows it, else the default when there is
      one, else None (which the method's own validation then rejects); any
      other text is parsed by the argument's type. */
  function ParameterValue(a: ArgumentMetadata, text: string, index: nat): (r: ArgValue)
    requires a.displayName.Some?
    ensures r.Given? <==> text == "#" || text == ""
    ensures r.Given? ==> r.value == if !a.typ.canBeNone && a.hasDefault then a.default else PyNone
    ensures r.Parsed? ==> r.typ == a.typ && r.text == text && r.number == index + 1
  {
    if text == "#" || |text| <= 0 then
      if a.typ.canBeNone then Given(PyNone)
      else if a.hasDefault then Given(a.default)
      else Given(PyNone)
    else Parsed(a.typ, text, a.displayName.value, index + 1)
  }

  /** The value of an argument taken from the geoprocessor. */
  function GeoprocessorValue(a: ArgumentMetadata): ArgValue
    requires a.geoprocessorVariable.Some?
  {
    FromGeoprocessor(SplitOn(a.geoprocessorVariable.value, '.'))
  }

  /** The assignments to the argument values, in order, for the arguments
      `args`; or the name of a displayed argument with no parameter of that
      name (a KeyError). */
  function ArgAssignments(args: seq<ArgumentMetadata>, params: seq<ToolParameter>): Result<seq<(string, ArgValue)>, string> {
    if args == [] then Ok([])
    else
      var init := ArgAssignments(args[..|args| - 1], params);
      var a := args[|args| - 1];
      if init.Err? then init else AssignArgument(init.value, a, params)
  }

  /** The assignments `before` followed by those of argument `a`. */
  function AssignArgument(before: seq<(string, ArgValue)>, a: ArgumentMetadata, params: seq<ToolParameter>): Result<seq<(string, ArgValue)>, string> {
    var fromGp := if a.geoprocessorVariable.Some? then [(a.name, GeoprocessorValue(a))] else [];
    if a.displayName.None? then Ok(before + fromGp)
    else match ParamIndex(params, a.name)
      case None => Err(a.name)
      case Some(i) => Ok(before + fromGp + [(a.name, ParameterValue(a, params[i].text, i))])
  }

  /** Once an argument has no parameter, the assignments stop there. */
  lemma {:induction false} ArgAssignmentsErr(args: seq<ArgumentMetadata>, params: seq<ToolParameter>, k: nat)
    requires k <= |args| && ArgAssignments(args[..k], params).Err?
    ensures ArgAssignments(args, params) == ArgAssignments(args[..k], params)
    decreases |args|
  {
    if k < |args| {
      var init := args[..|args| - 1];
      assert init[..k] == args[..k];
      ArgAssignmentsErr(init, params, k);
    } else {
      assert args[..k] == args;
    }
  }

  /** The argument values: each argument taken from the geoprocessor gets
      that value, and each displayed one the value of its parameter; a
      displayed argument with no parameter of its name fails with that name. */
  method ArgumentValues(args: seq<ArgumentMetadata>, params: seq<ToolParameter>) returns (r: Result<Dict<string, ArgValue>, string>)
    ensures r.Err? <==> ArgAssignments(args, params).Err?
    ensures r.Err? ==> r.error == ArgAssignments(args, params).error
    ensures r.Ok? ==> r.value == FromPairs(ArgAssignments(args, params).value)
  {
    var pni := ParamNumbers(params);
    var argValues: Dict<string, ArgValue> := [];
    for k := 0 to |args|
      invariant ArgAssignments(args[..k], params).Ok?
      invariant argValues == FromPairs(ArgAssignments(args[..k], params).value)
    {
      assert args[..k + 1][..k] == args[..k];
      var step := AssignArgumentValue(args[k], params, pni, argValues, ArgAssignments(args[..k], params).value);
      if step.Err? {
        ArgAssignmentsErr(args, params, k + 1);
        return Err(step.error);
      }
      argValues := step.value;
    }
    assert args[..|args|] == args;
    return Ok(argValues);
  }

  /** One pass of the loop of `_ExecuteMethodAsGeoprocessingTool` over the
      arguments: the geoprocessor's value first, then the parameter's. */
  method AssignArgumentValue(am: ArgumentMetadata, params: seq<ToolParameter>, pni: Dict<string, nat>,
                             argValues: Dict<string, ArgValue>, ghost before: seq<(string, ArgValue)>)
    returns (r: Result<Dict<string, ArgValue>, string>)
    requires pni == ParamNumbers(params) && argValues == FromPairs(before)
    ensures r.Err? <==> AssignArgument(before, am, params).Err?
    ensures r.Err? ==> r.error == am.name
    ensures r.Ok? ==> r.value == FromPairs(AssignArgument(before, am, params).value)
  {
    var values := argValues;
    ghost var fromGp: seq<(string, ArgValue)> := [];
    if am.geoprocessorVariable.Some? {
      fromGp := [(am.name, GeoprocessorValue(am))];
      UpdateAppend([], before, fromGp);
      UpdateSingle(values, am.name, GeoprocessorValue(am));
      values := Set(values, am.name, GeoprocessorValue(am));
    } else {
      assert before + fromGp == before;
    }
    assert values == FromPairs(before + fromGp);
    if am.displayName.Some? {
      ParamNumbersGet(params, am.name);
      var index := Get(pni, am.name);
      if index.None? {
        return Err(am.name);
      }
      var value := ParameterValue(am, params[index.value].text, index.value);
      UpdateAppend([], before + fromGp, [(am.name, value)]);
      UpdateSingle(values, am.name, value);
      values := Set(values, am.name, value);
    }
    return Ok(values);
  }

  /** The values are found exactly when every displayed argument has a
      parameter of its name. */
  lemma {:induction false} ArgumentValuesFound(args: seq<ArgumentMetadata>, params: seq<ToolParameter>)
    ensures ArgAssignments(args, params).Ok? <==>
      forall i :: 0 <= i < |args| && args[i].displayName.Some? ==>
        exists j :: 0 <= j < |params| && params[j].name == args[i].name
  {
    if args != [] {
      var n := |args| - 1;
      var init := args[..n];
      ArgumentValuesFound(init, params);
      assert forall i :: 0 <= i < n ==> init[i] == args[i];
      if args[n].displayName.Some? && ParamIndex(params, args[n].name).None? {
        assert !(exists j :: 0 <= j < |params| && params[j].name == args[n].name);
      }
    }
  }

  /** An argument no argument is named after gets no value. */
  lemma {:induction false} ArgAssignmentsAbsent(args: seq<ArgumentMetadata>, params: seq<ToolParameter>, name: string)
    requires ArgAssignments(args, params).Ok?
    requires forall i :: 0 <= i < |args| ==> args[i].name != name
    ensures LastValue(ArgAssignments(args, params).value, name) == None
  {
    if args != [] {
      var n := |args| - 1;
      var a := args[n];
      var init := ArgAssignments(args[..n], params);
      ArgAssignmentsAbsent(args[..n], params, name);
      var fromGp := if a.geoprocessorVariable.Some? then [(a.name, GeoprocessorValue(a))] else [];
      LastValueAppend(init.value, fromGp, name);
      if a.displayName.Some? {
        var i := ParamIndex(params, a.name).value;
        LastValueAppend(init.value + fromGp, [(a.name, ParameterValue(a, params[i].text, i))], name);
      }
    }
  }

  /** With distinct argument names, each argument's value is that of its
      parameter when it is displayed, else the geoprocessor's when it is
      taken from there, and it has none otherwise. */
  lemma {:induction false} ArgumentValueOf(args: seq<ArgumentMetadata>, params: seq<ToolParameter>, k: nat)
    requires k < |args|
    requires forall i, j :: 0 <= i < j < |args| ==> args[i].name != args[j].name
    requires ArgAssignments(args, params).Ok?
    ensures var a, v := args[k], Get(FromPairs(ArgAssignments(args, params).value), args[k].name);
      (a.displayName.Some? ==>
        ParamIndex(params, a.name).Some? &&
        var i := ParamIndex(params, a.name).value; v == Some(ParameterValue(a, params[i].text, i))) &&
      (a.displayName.None? ==> v == if a.geoprocessorVariable.Some? then Some(GeoprocessorValue(a)) else None)
  {
    var a := args[k];
    UpdateGet([], ArgAssignments(args, params).value, a.name);
    AssignedValue(args, params, k);
  }

  lemma {:induction false} AssignedValue(args: seq<ArgumentMetadata>, params: seq<ToolParameter>, k: nat)
    requires k < |args|
    requires forall i, j :: 0 <= i < j < |args| ==> args[i].name != args[j].name
    requires ArgAssignments(args, params).Ok?
    ensures var a, v := args[k], LastValue(ArgAssignments(args, params).value, args[k].name);
      (a.displayName.Some? ==>
        ParamIndex(params, a.name).Some? &&
        var i := ParamIndex(params, a.name).value; v == Some(ParameterValue(a, params[i].text, i))) &&
      (a.displayName.None? ==> v == if a.geoprocessorVariable.Some? then Some(GeoprocessorValue(a)) else None)
  {
    var n := |args| - 1;
    AssignedStep(args, params, args[k].name);
    if k < n {
      assert args[k].name != args[n].name;
      assert forall i :: 0 <= i < n ==> args[..n][i] == args[i];
      AssignedValue(args[..n], params, k);
    } else {
      ArgAssignmentsAbsent(args[..n], params, args[k].name);
    }
  }

  /** The value `name` has after the last argument's assignments: that
      argument's own value when it is named `name` and gets one, else the
      value before it. */
  lemma {:induction false} AssignedStep(args: seq<ArgumentMetadata>, params: seq<ToolParameter>, name: string)
    requires args != [] && ArgAssignments(args, params).Ok?
    ensures ArgAssignments(args[..|args| - 1], params).Ok?
    ensures args[|args| - 1].displayName.Some? ==> ParamIndex(params, args[|args| - 1].name).Some?
    ensures var last := args[|args| - 1];
      var before := LastValue(ArgAssignments(args[..|args| - 1], params).value, name);
      LastValue(ArgAssignments(args, params).value, name) ==
        if name != last.name then before
        else if last.displayName.Some? then
          var i := ParamIndex(params, last.name).value; Some(ParameterValue(last, params[i].text, i))
        else if last.geoprocessorVariable.Some? then Some(GeoprocessorValue(last))
        else before
  {
    var n := |args| - 1;
    var last := args[n];
    var init := ArgAssignments(args[..n], params);
    var fromGp := if last.geoprocessorVariable.Some? then [(last.name, GeoprocessorValue(last))] else [];
    LastValueAppend(init.value, fromGp, name);
    if last.displayName.Some? {
      var i := ParamIndex(params, last.name).value;
      LastValueAppend(init.value + fromGp, [(last.name, ParameterValue(last, params[i].text, i))], name);
    }
  }

  /** The positions of the results shown as tool parameters, in order. */
  function DisplayedResults(rs: seq<ResultMetadata>): (d: seq<nat>)
    ensures |d| <= |rs|
    ensures forall j :: 0 <= j < |d| ==> d[j] < |rs| && rs[d[j]].displayName.Some?
    ensures forall j, j' :: 0 <= j < j' < |d| ==> d[j] < d[j']
    ensures forall i :: 0 <= i < |rs| && rs[i].displayName.Some? ==> i in d
  {
    if rs == [] then []
    else
      var n := |rs| - 1;
      DisplayedResults(rs[..n]) + if rs[n].displayName.Some? then [n] else []
  }

  /** The output parameters set after the call, for the results `rs` (the
      first of the method's results): each displayed result sets the
      parameter of its name to its own value; a displayed result with no
      parameter of its name fails with that name (a KeyError), and the
      parameters already set before it are not returned. */
  function DerivedOutputs(rs: seq<ResultMetadata>, results: seq<PyObject>, params: seq<ToolParameter>): (r: Result<seq<(nat, PyObject)>, string>)
    requires |rs| <= |results|
    ensures r.Ok? <==> forall i :: 0 <= i < |rs| && rs[i].displayName.Some? ==> ParamIndex(params, rs[i].name).Some?
    ensures r.Ok? ==> |r.value| == |DisplayedResults(rs)|
    ensures r.Err? ==>
      exists i :: 0 <= i < |rs| && rs[i].displayName.Some? && ParamIndex(params, rs[i].name).None? && r.error == rs[i].name
  {
    if rs == [] then Ok([])
    else
      var n := |rs| - 1;
      var init := DerivedOutputs(rs[..n], results, params);
      if init.Err? || rs[n].displayName.None? then init
      else match ParamIndex(params, rs[n].name)
        case None => Err(rs[n].name)
        case Some(p) => Ok(init.value + [(p, results[n])])
  }

  /** The output parameters as the loop sets them: the value given to the
      parameter of a displayed result is taken at the position that counts
      the displayed results only. On a missing parameter only the error is
      returned, although the loop has already set the parameters of the
      displayed results before it. */
  function DerivedOutputsAsWritten(rs: seq<ResultMetadata>, results: seq<PyObject>, params: seq<ToolParameter>): (r: Result<seq<(nat, PyObject)>, string>)
    requires |rs| <= |results|
    ensures r.Err? <==> DerivedOutputs(rs, results, params).Err?
    ensures r.Err? ==> r == DerivedOutputs(rs, results, params)
    ensures r.Ok? ==> (|r.value| == |DerivedOutputs(rs, results, params).value| &&
      forall j :: 0 <= j < |r.value| ==> r.value[j].0 == DerivedOutputs(rs, results, params).value[j].0)
  {
    if rs == [] then Ok([])
    else
      var n := |rs| - 1;
      var init := DerivedOutputsAsWritten(rs[..n], results, params);
      if init.Err? || rs[n].displayName.None? then init
      else match ParamIndex(params, rs[n].name)
        case None => Err(rs[n].name)
        case Some(p) => Ok(init.value + [(p, results[|DisplayedResults(rs[..n])|])])
  }

  /** A hidden result before a displayed one: the loop as written sets the
      displayed result's parameter to the hidden result's value. */
  lemma DerivedOutputsAsWrittenMisplaced()
    ensures var rs := [ResultMetadata("count", ScalarType("Long", false), None, None),
                       ResultMetadata("path", ScalarType("DEFeatureClass", false), Some("Output features"), None)];
      var results := [PyObject(1, "3"), PyObject(2, "out.shp")];
      var params := [ToolParameter("path", "")];
      DerivedOutputsAsWritten(rs, results, params) == Ok([(0, results[0])]) &&
      DerivedOutputs(rs, results, params) == Ok([(0, results[1])])
  {
    var rs := [ResultMetadata("count", ScalarType("Long", false), None, None),
               ResultMetadata("path", ScalarType("DEFeatureClass", false), Some("Output features"), None)];
    var results := [PyObject(1, "3"), PyObject(2, "out.shp")];
    var params := [ToolParameter("path", "")];
    assert rs[..1][..0] == [] && rs[..1] == [rs[0]];
    assert DisplayedResults(rs[..1]) == [];
    assert ParamIndex(params, "path") == Some(0);
    assert DerivedOutputsAsWritten(rs[..1], results, params) == Ok([]);
    assert DerivedOutputs(rs[..1], results, params) == Ok([]);
    assert |rs| - 1 == 1 && rs[1].displayName.Some? && rs[1].name == "path";
    assert DerivedOutputsAsWritten(rs, results, params) == Ok([] + [(0, results[0])]);
    assert DerivedOutputs(rs, results, params) == Ok([] + [(0, results[1])]);
    assert [] + [(0, results[0])] == [(0, results[0])] && [] + [(0, results[1])] == [(0, results[1])];
  }

  /** Once a result has no parameter, the outputs stop there. */
  lemma {:induction false} DerivedOutputsErr(rs: seq<ResultMetadata>, results: seq<PyObject>, params: seq<ToolParameter>, k: nat)
    requires k <= |rs| <= |results| && DerivedOutputs(rs[..k], results, params).Err?
    ensures DerivedOutputs(rs, results, params) == DerivedOutputs(rs[..k], results, params)
    decreases |rs|
  {
    if k < |rs| {
      var init := rs[..|rs| - 1];
      assert init[..k] == rs[..k];
      DerivedOutputsErr(init, results, params, k);
    } else {
      assert rs[..k] == rs;
    }
  }

  /** Sets the derived output parameters from the method's results, one
      value per result. */
  method SetDerivedOutputs(rs: seq<ResultMetadata>, results: seq<PyObject>, params: seq<ToolParameter>) returns (r: Result<seq<(nat, PyObject)>, string>)
    requires |results| == |rs|
    ensures r == DerivedOutputs(rs, results, params)
  {
    var pni := ParamNumbers(params);
    var outputs: seq<(nat, PyObject)> := [];
    for i := 0 to |rs|
      invariant DerivedOutputs(rs[..i], results, params) == Ok(outputs)
    {
      assert rs[..i + 1][..i] == rs[..i];
      var rm := rs[i];
      if rm.displayName.Some? {
        ParamNumbersGet(params, rm.name);
        var index := Get(pni, rm.name);
        if index.None? {
          DerivedOutputsErr(rs, results, params, i + 1);
          return Err(rm.name);
        }
        outputs := outputs + [(index.value, results[i])];
      }
    }
    assert rs[..|rs|] == rs;
    return Ok(outputs);
  }

  /** Each displayed result, in order, sets the parameter of its name to its
      own value, and nothing else is set. */
  lemma {:induction false} DerivedOutputsOf(rs: seq<ResultMetadata>, results: seq<PyObject>, params: seq<ToolParameter>)
    requires |rs| <= |results| && DerivedOutputs(rs, results, params).Ok?
    ensures var o, d := DerivedOutputs(rs, results, params).value, DisplayedResults(rs);
      |o| == |d| &&
      forall j :: 0 <= j < |d| ==>
        ParamIndex(params, rs[d[j]].name).Some? && o[j] == (ParamIndex(params, rs[d[j]].name).value, results[d[j]])
  {
    if rs != [] {
      var n := |rs| - 1;
      var init := rs[..n];
      assert DerivedOutputs(init, results, params).Ok?;
      DerivedOutputsOf(init, results, params);
      var o0, d0 := DerivedOutputs(init, results, params).value, DisplayedResults(init);
      var o, d := DerivedOutputs(rs, results, params).value, DisplayedResults(rs);
      if rs[n].displayName.Some? {
        assert ParamIndex(params, rs[n].name).Some?;
        assert o == o0 + [(ParamIndex(params, rs[n].name).value, results[n])];
        assert d == d0 + [n];
      } else {
        assert o == o0 && d == d0;
      }
      forall j | 0 <= j < |d0|
        ensures ParamIndex(params, rs[d[j]].name).Some? && o[j] == (ParamIndex(params, rs[d[j]].name).value, results[d[j]])
      {
        assert d[j] == d0[j] && o[j] == o0[j] && init[d0[j]] == rs[d0[j]];
      }
    }
  }

  /** The outputs are set exactly when every displayed result has a
      parameter of its name. */
  lemma DerivedOutputsFound(rs: seq<ResultMetadata>, results: seq<PyObject>, params: seq<ToolParameter>)
    requires |rs| <= |results|
    ensures DerivedOutputs(rs, results, params).Ok? <==>
      forall i :: 0 <= i < |rs| && rs[i].displayName.Some? ==>
        exists j :: 0 <= j < |params| && params[j].name == rs[i].name
  {
    forall i | 0 <= i < |rs| && rs[i].displayName.Some?
      ensures ParamIndex(params, rs[i].name).Some? <==> exists j :: 0 <= j < |params| && params[j].name == rs[i].name
    {
    }
  }

  // ---------------------------------------------------------------------
  // Category labels of a tool

  /** A category key ends in a digit, so no name or description key is one. */
  lemma CategoryKeyNotNameKey(n: nat, x: string)
    ensures CategoryKey(n) != x + ".name" && CategoryKey(n) != x + ".descr"
  {
    var k := CategoryKey(n);
    assert k[|k| - 1] == NatToString(n)[|NatToString(n)| - 1];
    assert IsDigit(k[|k| - 1]);
  }

  /** The name and description assignments of a parameter set no category key. */
  lemma NamePairsNoCategory(x: string, displayName: string, n: nat)
    ensures LastValue([(x + ".name", displayName), (x + ".descr", Todo)], CategoryKey(n)) == None
  {
    var names := [(x + ".name", displayName), (x + ".descr", Todo)];
    CategoryKeyNotNameKey(n, x);
    assert names[..1][..0] == [] && names[..1] == [names[0]];
    assert LastValue(names[..1], CategoryKey(n)) == None;
  }

  /** The results' `.rc` assignments hold no category key. */
  lemma {:induction false} ResultRcNoCategory(results: seq<ResultMetadata>, n: nat)
    ensures LastValue(ResultRcPairs(results), CategoryKey(n)) == None
  {
    if results != [] {
      var r := results[|results| - 1];
      var tail := if r.displayName.Some? then [(r.name + ".name", r.displayName.value), (r.name + ".descr", Todo)] else [];
      ResultRcNoCategory(results[..|results| - 1], n);
      if r.displayName.Some? { NamePairsNoCategory(r.name, r.displayName.value, n); }
      assert ResultRcPairs(results) == ResultRcPairs(results[..|results| - 1]) + tail;
      LastValueAppend(ResultRcPairs(results[..|results| - 1]), tail, CategoryKey(n));
    }
  }

  /** The arguments' `.rc` assignments label the k-th category first seen
      under key number k, and no other number. */
  lemma {:induction false} ArgRcLabels(args: seq<ArgumentMetadata>, order: seq<string>, n: nat)
    requires FirstSeen(ArgCategories(args)) <= order
    ensures var f := FirstSeen(ArgCategories(args));
      LastValue(ArgRcPairs(args, order), CategoryKey(n)) == if 0 < n <= |f| then Some(f[n - 1]) else None
  {
    if args != [] {
      var init := args[..|args| - 1];
      var f0, f := FirstSeen(ArgCategories(init)), FirstSeen(ArgCategories(args));
      ArgCategoriesPrefix(args, |args| - 1);
      FirstSeenOfPrefix(ArgCategories(init), ArgCategories(args));
      ArgRcLabels(init, order, n);
      ArgRcStep(args, order, n);
      if 0 < n <= |f0| {
        assert f0[n - 1] == f[n - 1];
      }
    }
  }

  /** The last argument labels the category it is the first to have, under
      the next number; otherwise the labels are those of the arguments before it. */
  lemma ArgRcStep(args: seq<ArgumentMetadata>, order: seq<string>, n: nat)
    requires args != [] && FirstSeen(ArgCategories(args)) <= order
    ensures var init := args[..|args| - 1];
      var f0, f := FirstSeen(ArgCategories(init)), FirstSeen(ArgCategories(args));
      |f| <= |f0| + 1 &&
      LastValue(ArgRcPairs(args, order), CategoryKey(n)) ==
        if |f0| < n <= |f| then Some(f[n - 1]) else LastValue(ArgRcPairs(init, order), CategoryKey(n))
  {
    var init, a := args[..|args| - 1], args[|args| - 1];
    var key := CategoryKey(n);
    if HasCategory(a) && a.category.value !in ArgCategories(init) {
      ArgRcStepNew(args, order);
      var f0 := FirstSeen(ArgCategories(init));
      var names := [(a.name + ".name", a.displayName.value), (a.name + ".descr", Todo)];
      var labelPair := [(CategoryKey(|f0| + 1), a.category.value)];
      NamePairsNoCategory(a.name, a.displayName.value, n);
      LastValueAppend(ArgRcPairs(init, order), names + labelPair, key);
      LastValueAppend(names, labelPair, key);
      if key == CategoryKey(|f0| + 1) { CategoryKeyInjective(n, |f0| + 1); }
    } else {
      ArgRcStepKnown(args, order, n);
    }
  }

  /** The last argument is the first with its category: it is first seen
      last, and labelled under the next number after its name and description. */
  lemma ArgRcStepNew(args: seq<ArgumentMetadata>, order: seq<string>)
    requires args != [] && FirstSeen(ArgCategories(args)) <= order
    requires var a := args[|args| - 1]; HasCategory(a) && a.category.value !in ArgCategories(args[..|args| - 1])
    ensures var init, a := args[..|args| - 1], args[|args| - 1];
      var f0 := FirstSeen(ArgCategories(init));
      FirstSeen(ArgCategories(args)) == f0 + [a.category.value]
    ensures var init, a := args[..|args| - 1], args[|args| - 1];
      var f0 := FirstSeen(ArgCategories(init));
      ArgRcPairs(args, order) == ArgRcPairs(init, order) +
        ([(a.name + ".name", a.displayName.value), (a.name + ".descr", Todo)] + [(CategoryKey(|f0| + 1), a.category.value)])
  {
    var init, a := args[..|args| - 1], args[|args| - 1];
    var c := a.category.value;
    var f0 := FirstSeen(ArgCategories(init));
    assert ArgCategories(args) == ArgCategories(init) + [c];
    FirstSeenAppend(ArgCategories(init), c);
    assert IndexOf(order, c) == |f0| by {
      assert order[|f0|] == c;
    }
    var names := [(a.name + ".name", a.displayName.value), (a.name + ".descr", Todo)];
    assert ArgRcPairs(args, order) == ArgRcPairs(init, order) + (names + [(CategoryKey(IndexOf(order, c) + 1), c)]);
  }

  /** The last argument has no category or one met before: it adds no label. */
  lemma ArgRcStepKnown(args: seq<ArgumentMetadata>, order: seq<string>, n: nat)
    requires args != []
    requires var a := args[|args| - 1]; !(HasCategory(a) && a.category.value !in ArgCategories(args[..|args| - 1]))
    ensures var init := args[..|args| - 1];
      FirstSeen(ArgCategories(args)) == FirstSeen(ArgCategories(init)) &&
      LastValue(ArgRcPairs(args, order), CategoryKey(n)) == LastValue(ArgRcPairs(init, order), CategoryKey(n))
  {
    var init, a := args[..|args| - 1], args[|args| - 1];
    var key := CategoryKey(n);
    if HasCategory(a) {
      assert ArgCategories(args) == ArgCategories(init) + [a.category.value];
      FirstSeenAppend(ArgCategories(init), a.category.value);
    } else {
      assert ArgCategories(args) == ArgCategories(init);
    }
    if Displayed(a) {
      var names := [(a.name + ".name", a.displayName.value), (a.name + ".descr", Todo)];
      NamePairsNoCategory(a.name, a.displayName.value, n);
      assert ArgRcPairs(args, order) == ArgRcPairs(init, order) + names;
      LastValueAppend(ArgRcPairs(init, order), names, key);
    } else {
      assert ArgRcPairs(args, order) == ArgRcPairs(init, order) + [] == ArgRcPairs(init, order);
    }
  }

  /** Each category of a tool's parameters has exactly one label in
      `tool.content.rc`: the k-th category first seen is labelled under
      `param.category<k>`, and no other number has a label. */
  lemma {:induction false} ToolCategoryLabels(mm: MethodMetadata, n: nat)
    ensures var order := FirstSeen(ArgCategories(mm.arguments));
      Get(ToolRc(mm), CategoryKey(n)) == if 0 < n <= |order| then Some(order[n - 1]) else None
  {
    var order := FirstSeen(ArgCategories(mm.arguments));
    var base := [("title", mm.displayName), ("description", GetToolDescription(mm))];
    var key := CategoryKey(n);
    assert key[0] == 'p';
    assert Get(base, key) == None;
    UpdateGet(Update(base, ArgRcPairs(mm.arguments, order)), ResultRcPairs(mm.results), key);
    ResultRcNoCategory(mm.results, n);
    UpdateGet(base, ArgRcPairs(mm.arguments, order), key);
    ArgRcLabels(mm.arguments, order, n);
  }

  lemma {:induction false} ArgCategoriesHas(args: seq<ArgumentMetadata>, k: nat)
    requires k < |args| && HasCategory(args[k])
    ensures args[k].category.value in ArgCategories(args)
  {
    if k < |args| - 1 {
      ArgCategoriesHas(args[..|args| - 1], k);
    }
  }

  /** The category a parameter entry refers to resolves, in the tool's `.rc`
      map, to the argument's own category: argument `k` has category `c`,
      which is numbered `n` by its first-seen place. */
  lemma {:induction false} CategoryReferenceResolves(mm: MethodMetadata, k: nat, c: string, n: nat)
    requires k < |mm.arguments| && HasCategory(mm.arguments[k]) && c == mm.arguments[k].category.value
    requires n == IndexOf(FirstSeen(ArgCategories(mm.arguments)), c) + 1
    ensures CategoryRefOf(mm.arguments[k], FirstSeen(ArgCategories(mm.arguments))) == Some(CategoryRef(n))
    ensures Get(ToolRc(mm), CategoryKey(n)) == Some(c)
  {
    var order := FirstSeen(ArgCategories(mm.arguments));
    assert 0 < n <= |order| && order[n - 1] == c by {
      ArgCategoriesHas(mm.arguments, k);
    }
    assert CategoryRefOf(mm.arguments[k], order) == Some(CategoryRef(n));
    ToolCategoryLabels(mm, n);
  }
}
