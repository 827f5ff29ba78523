/** The discrete rules by which a `CMEMSARCOArray` reads its grid description
    from the Copernicus Marine Service catalogue and from the opened dataset:
    the first-match service search, the coordinate and dimension checks, the
    depth normalisation, the time-units parse, the physical dimensions and
    flip flags, the no-data attribute precedence and the depth cell edges. */
module CMEMS {
  import opened Wrappers
  import opened PyStr
  import opened PyDict

  /** A value of the catalogue, as `copernicusmarine.describe` returns it. */
  datatype CatValue =
    | CNone
    | CBool(b: bool)
    | CInt(i: int)
    | CFloat(f: real)
    | CStr(s: string)
    | CList(items: seq<CatValue>)
    | CDict(entries: Dict<string, CatValue>)

  datatype CmemsError =
    /** `copernicusmarine.describe` raised; reported as a RuntimeError. */
    | DescribeFailed
    | DescribeReturnedNonDict
    | DatasetNotFound
    | NoProductsList
    /** A product's `datasets` value is a scalar, so iterating over it raises. */
    | DatasetsNotIterable
    /** `isinstance` called with one argument while choosing among several versions. */
    | VersionLabelTypeError
    /** The chosen version is not a dict: `in` raises on a scalar, and
        subscripting a list or string that contains the key raises. */
    | VersionNotDict
    /** No variable matched, so `variable` is still None when it is subscripted. */
    | NoMatchingVariable
    | CoordinateNotADict
    | UnknownCoordinate(coordinateId: CatValue)
    | DuplicateCoordinate(name: string)
    | UnsupportedDimensions(dims: string)
    | LonLatAttributeMissing(coord: string, attr: string)
    | NoDepthValues
    | DepthValueNotNumeric
    | DepthMixedSigns
    | DepthNotMonotonic
    | TimeUnitsMissing
    | TimeUnitsUnparsable(units: string)
    /** The constant step is zero, so the step count divides by zero. */
    | TimeStepZero
    | TimeValueNotNumeric
    /** Neither a complete step triple nor a list of values. */
    | TimeAttributesUnrecognised
    | UnknownPhysicalDimension(dim: string)
    | DuplicatePhysicalDimensions
    | DimensionsMismatch
    | UnsupportedDataType(dataType: string)
    | NotZCoordinate(coord: string)
    /** Opening the dataset with `open_dataset_from_arco_series` raised. */
    | OpenFailed
    /** The dataset opened, but taking the variable from it raised. */
    | VariableLookupFailed

  /** `v[k]` on a dict record, as `dict.get`. */
  function Field(v: CatValue, k: string): Option<CatValue> {
    if v.CDict? then Lookup(v.entries, k) else None
  }

  /** `k in v`; a value that is not a dict has no keys here. */
  predicate HasKey(v: CatValue, k: string) {
    Field(v, k).Some?
  }

  function Lookup(d: Dict<string, CatValue>, k: string): Option<CatValue> {
    if d == [] then None else if d[0].0 == k then Some(d[0].1) else Lookup(d[1..], k)
  }

  /** `Lookup` is `Get` on the record's pairs. */
  lemma {:induction false} LookupIsGet(d: Dict<string, CatValue>, k: string)
    ensures Lookup(d, k) == Get(d, k)
  {
    if d != [] && d[0].0 != k {
      LookupIsGet(d[1..], k);
    }
  }

  predicate IsNonEmptyStr(o: Option<CatValue>) {
    o.Some? && o.value.CStr? && |o.value.s| > 0
  }

  predicate IsNonEmptyList(o: Option<CatValue>) {
    o.Some? && o.value.CList? && |o.value.items| > 0
  }

  /** The items a `for` loop visits; only lists are iterated here. */
  function Items(o: Option<CatValue>): seq<CatValue> {
    if o.Some? && o.value.CList? then o.value.items else []
  }

  /** `isinstance(x, (float, int))`, which a bool also passes. */
  predicate IsNumeric(v: CatValue) {
    v.CInt? || v.CFloat? || v.CBool?
  }

  function NumValue(v: CatValue): real
    requires IsNumeric(v)
  {
    match v
    case CInt(i) => i as real
    case CFloat(f) => f
    case CBool(b) => if b then 1.0 else 0.0
  }

  // ---------------------------------------------------------------------------
  // Service selection

  type Candidate = (CatValue, CatValue)

  /** A variable record with the keys the service check demands. */
  predicate VariableWellFormed(v: CatValue) {
    v.CDict? && IsNonEmptyStr(Field(v, "short_name")) && IsNonEmptyStr(Field(v, "standard_name")) &&
    Field(v, "coordinates").Some? && Field(v, "coordinates").value.CList?
  }

  /** A service record that passes the check before its variables are read. */
  predicate ServiceWellFormed(s: CatValue) {
    s.CDict? &&
    HasKey(s, "service_format") && HasKey(s, "service_type") && HasKey(s, "uri") && HasKey(s, "variables") &&
    (Field(s, "service_format").value.CStr? || Field(s, "service_format").value.CNone?) &&
    HasKey(Field(s, "service_type").value, "service_name") &&
    IsNonEmptyStr(Field(s, "uri")) &&
    IsNonEmptyList(Field(s, "variables")) &&
    forall v :: v in Field(s, "variables").value.items ==> VariableWellFormed(v)
  }

  /** The variable has the short name asked for, in a Zarr 'arco-geo-series' service. */
  predicate IsMatch(c: Candidate, name: string) {
    var (s, v) := c;
    Field(v, "short_name") == Some(CStr(name)) &&
    Field(s, "service_format") == Some(CStr("zarr")) &&
    Field(s, "service_type").Some? &&
    Field(Field(s, "service_type").value, "service_name") == Some(CStr("arco-geo-series"))
  }

  function VariablePairs(s: CatValue, vs: seq<CatValue>): (r: seq<Candidate>)
    ensures |r| == |vs| && forall i :: 0 <= i < |vs| ==> r[i] == (s, vs[i])
  {
    seq(|vs|, i requires 0 <= i < |vs| => (s, vs[i]))
  }

  /** The (service, variable) pairs one service offers; none when it is skipped. */
  function ServiceCandidates(s: CatValue): seq<Candidate> {
    if ServiceWellFormed(s) then VariablePairs(s, Items(Field(s, "variables"))) else []
  }

  function ServicesCandidates(ss: seq<CatValue>): seq<Candidate> {
    if ss == [] then []
    else ServicesCandidates(ss[..|ss| - 1]) + ServiceCandidates(ss[|ss| - 1])
  }

  /** Python's `k in v` on a catalogue value: a key of a dict, an element of
      a list, a substring of a string. A scalar cannot be searched (`in`
      raises on it) and is given false here. */
  predicate Contains(v: CatValue, k: string) {
    match v
    case CDict(_) => HasKey(v, k)
    case CList(items) => CStr(k) in items
    case CStr(text) => Occurs(k, text)
    case _ => false
  }

  /** `k` occurs in `text` as a contiguous piece. */
  predicate Occurs(k: string, text: string)
    decreases |text|
  {
    StartsWith(text, k) || (|text| > 0 && Occurs(k, text[1..]))
  }

  /** `k` sits in `text` at position `i`. */
  predicate OccursAt(k: string, text: string, i: int) {
    0 <= i && i + |k| <= |text| && text[i..i + |k|] == k
  }

  /** `Occurs` is the substring test: `k` sits somewhere in `text`. */
  lemma {:induction false} OccursIff(k: string, text: string)
    ensures Occurs(k, text) <==> exists i :: OccursAt(k, text, i)
    decreases |text|
  {
    if StartsWith(text, k) {
      assert OccursAt(k, text, 0);
    }
    if |text| > 0 {
      OccursIff(k, text[1..]);
      if Occurs(k, text[1..]) {
        var j :| OccursAt(k, text[1..], j);
        assert text[j + 1..j + 1 + |k|] == text[1..][j..j + |k|];
        assert OccursAt(k, text, j + 1);
      }
      if i :| OccursAt(k, text, i) && i > 0 {
        assert text[1..][i - 1..i - 1 + |k|] == text[i..i + |k|];
        assert OccursAt(k, text[1..], i - 1);
      }
    }
  }

  /** The dataset record searched: the wanted id, with a non-empty version list. */
  predicate IsWanted(d: CatValue, id: string) {
    Field(d, "dataset_id") == Some(CStr(id)) && IsNonEmptyList(Field(d, "versions"))
  }

  /** The services searched for one dataset record: those of the last part of
      its first version, or none when the record is skipped. */
  function DatasetServices(d: CatValue, id: string): (r: Result<seq<CatValue>, CmemsError>)
    ensures r.Err? ==> IsWanted(d, id) && r.error in {VersionLabelTypeError, VersionNotDict}
    ensures r == Err(VersionLabelTypeError) <==>
      IsWanted(d, id) && |Field(d, "versions").value.items| > 1 && HasKey(Field(d, "versions").value.items[0], "label")
    ensures r == Err(VersionNotDict) <==>
      IsWanted(d, id) &&
      var vs := Field(d, "versions").value.items;
      !vs[0].CDict? && (IsScalar(vs[0]) || (|vs| > 1 && Contains(vs[0], "label")) || Contains(vs[0], "parts"))
    ensures r.Ok? && r.value != [] ==>
      IsWanted(d, id) &&
      var version := Field(d, "versions").value.items[0];
      IsNonEmptyList(Field(version, "parts")) &&
      var parts := Field(version, "parts").value.items;
      Field(parts[|parts| - 1], "services") == Some(CList(r.value))
  {
    if !d.CDict? || !HasKey(d, "dataset_id") || Field(d, "dataset_id") != Some(CStr(id)) then Ok([])
    else if !IsNonEmptyList(Field(d, "versions")) then Ok([])
    else
      var versions := Field(d, "versions").value.items;
      var version := versions[0];
      if IsScalar(version) then Err(VersionNotDict)
      else if |versions| > 1 && Contains(version, "label") then
        (if version.CDict? then Err(VersionLabelTypeError) else Err(VersionNotDict))
      else if !Contains(version, "parts") then Ok([])
      else if !version.CDict? then Err(VersionNotDict)
      else if !IsNonEmptyList(Field(version, "parts")) then Ok([])
      else
        var parts := Field(version, "parts").value.items;
        var last := parts[|parts| - 1];
        if !last.CDict? || !IsNonEmptyList(Field(last, "services")) then Ok([])
        else Ok(Field(last, "services").value.items)
  }

  function DatasetsCandidates(ds: seq<CatValue>, id: string): (r: Result<seq<Candidate>, CmemsError>)
    ensures r.Err? ==> r.error in {VersionLabelTypeError, VersionNotDict}
  {
    if ds == [] then Ok([])
    else
      match DatasetsCandidates(ds[..|ds| - 1], id)
      case Err(e) => Err(e)
      case Ok(a) =>
        match DatasetServices(ds[|ds| - 1], id)
        case Err(e) => Err(e)
        case Ok(ss) => Ok(a + ServicesCandidates(ss))
  }

  /** The records `for dataset in product['datasets']` visits. A product that
      is not a dict or has no `datasets` key is skipped. A dict yields its keys
      and a string its characters, none of which is a dict record, so both are
      searched as if empty; `None`, a number or a bool is not iterable. */
  function ProductDatasets(p: CatValue): (r: Result<seq<CatValue>, CmemsError>)
    ensures r.Err? <==> p.CDict? && HasKey(p, "datasets") && IsScalar(Field(p, "datasets").value)
    ensures r.Err? ==> r.error == DatasetsNotIterable
    ensures r.Ok? && r.value != [] ==> Field(p, "datasets") == Some(CList(r.value))
  {
    if !p.CDict? || !HasKey(p, "datasets") then Ok([])
    else
      match Field(p, "datasets").value
      case CList(items) => Ok(items)
      case CDict(_) => Ok([])
      case CStr(_) => Ok([])
      case _ => Err(DatasetsNotIterable)
  }

  /** `None`, a number or a bool: a value a `for` loop cannot iterate. */
  predicate IsScalar(v: CatValue) {
    v.CNone? || v.CBool? || v.CInt? || v.CFloat?
  }

  /** The candidates of one product record, or the error that stops the search. */
  function ProductCandidates(p: CatValue, id: string): (r: Result<seq<Candidate>, CmemsError>)
    ensures r.Err? ==> r.error in {VersionLabelTypeError, VersionNotDict, DatasetsNotIterable}
  {
    match ProductDatasets(p)
    case Err(e) => Err(e)
    case Ok(ds) => DatasetsCandidates(ds, id)
  }

  function ProductsCandidates(ps: seq<CatValue>, id: string): (r: Result<seq<Candidate>, CmemsError>)
    ensures r.Err? ==> r.error in {VersionLabelTypeError, VersionNotDict, DatasetsNotIterable}
  {
    if ps == [] then Ok([])
    else
      match ProductsCandidates(ps[..|ps| - 1], id)
      case Err(e) => Err(e)
      case Ok(a) =>
        match ProductCandidates(ps[|ps| - 1], id)
        case Err(e) => Err(e)
        case Ok(b) => Ok(a + b)
  }

  function FirstMatch(cs: seq<Candidate>, name: string): Option<Candidate> {
    if cs == [] then None else if IsMatch(cs[0], name) then Some(cs[0]) else FirstMatch(cs[1..], name)
  }

  /** What has been found stays; otherwise the later search decides. */
  function Keep(found: Option<Candidate>, later: Option<Candidate>): Option<Candidate> {
    if found.Some? then found else later
  }

  /** `FirstMatch` finds nothing exactly when no candidate matches. */
  lemma {:induction false} FirstMatchNone(cs: seq<Candidate>, name: string)
    ensures FirstMatch(cs, name).None? <==> forall i :: 0 <= i < |cs| ==> !IsMatch(cs[i], name)
  {
    if cs != [] && !IsMatch(cs[0], name) {
      FirstMatchNone(cs[1..], name);
      assert forall i :: 1 <= i < |cs| ==> cs[i] == cs[1..][i - 1];
    }
  }

  /** What `FirstMatch` finds is the matching candidate that comes first. */
  lemma {:induction false} FirstMatchIndex(cs: seq<Candidate>, name: string) returns (i: nat)
    requires FirstMatch(cs, name).Some?
    ensures i < |cs| && cs[i] == FirstMatch(cs, name).value && IsMatch(cs[i], name)
    ensures forall j :: 0 <= j < i ==> !IsMatch(cs[j], name)
  {
    if IsMatch(cs[0], name) {
      i := 0;
    } else {
      var k := FirstMatchIndex(cs[1..], name);
      i := k + 1;
      assert forall j :: 1 <= j < i ==> cs[j] == cs[1..][j - 1];
    }
  }

  lemma FirstMatchIn(cs: seq<Candidate>, name: string)
    requires FirstMatch(cs, name).Some?
    ensures IsMatch(FirstMatch(cs, name).value, name)
    ensures exists i :: 0 <= i < |cs| && cs[i] == FirstMatch(cs, name).value
  {
    var i := FirstMatchIndex(cs, name);
  }

  /** Searching two runs of candidates is searching the first, then the second. */
  lemma {:induction false} FirstMatchAppend(a: seq<Candidate>, b: seq<Candidate>, name: string)
    ensures FirstMatch(a + b, name) == Keep(FirstMatch(a, name), FirstMatch(b, name))
  {
    if a != [] {
      assert (a + b)[0] == a[0];
      assert (a + b)[1..] == a[1..] + b;
      FirstMatchAppend(a[1..], b, name);
    } else {
      assert a + b == b;
    }
  }

  lemma {:induction false} ProductsCandidatesPrefixErr(ps: seq<CatValue>, id: string, i: nat)
    requires i <= |ps| && ProductsCandidates(ps[..i], id).Err?
    ensures ProductsCandidates(ps, id) == ProductsCandidates(ps[..i], id)
    decreases |ps| - i
  {
    if i < |ps| {
      assert ps[..i + 1][..i] == ps[..i];
      ProductsCandidatesPrefixErr(ps, id, i + 1);
    } else {
      assert ps[..i] == ps;
    }
  }

  lemma {:induction false} DatasetsCandidatesPrefixErr(ds: seq<CatValue>, id: string, i: nat)
    requires i <= |ds| && DatasetsCandidates(ds[..i], id).Err?
    ensures DatasetsCandidates(ds, id) == DatasetsCandidates(ds[..i], id)
    decreases |ds| - i
  {
    if i < |ds| {
      assert ds[..i + 1][..i] == ds[..i];
      DatasetsCandidatesPrefixErr(ds, id, i + 1);
    } else {
      assert ds[..i] == ds;
    }
  }

  lemma FirstMatchSnoc(a: seq<Candidate>, c: Candidate, name: string)
    ensures FirstMatch(a + [c], name) == Keep(FirstMatch(a, name), if IsMatch(c, name) then Some(c) else None)
  {
    FirstMatchAppend(a, [c], name);
    assert [c][1..] == [];
  }

  /** The loop over the services of one dataset version and their variables:
      the first matching pair is kept, later ones leave it in place. */
  method ScanServices(services: seq<CatValue>, name: string, found: Option<Candidate>) returns (r: Option<Candidate>)
    ensures r == Keep(found, FirstMatch(ServicesCandidates(services), name))
  {
    r := found;
    var k := 0;
    while k < |services|
      invariant 0 <= k <= |services|
      invariant r == Keep(found, FirstMatch(ServicesCandidates(services[..k]), name))
    {
      var s := services[k];
      ghost var before := ServicesCandidates(services[..k]);
      assert services[..k + 1][..k] == services[..k];
      assert ServicesCandidates(services[..k + 1]) == before + ServiceCandidates(s);
      FirstMatchAppend(before, ServiceCandidates(s), name);
      if s.CDict? && ServiceWellFormed(s) {
        r := ScanVariables(s, Items(Field(s, "variables")), name, r);
      } else {
        assert ServiceCandidates(s) == [];
      }
      k := k + 1;
    }
    assert services[..k] == services;
  }

  /** The loop over the variables of one service. */
  method ScanVariables(s: CatValue, vars: seq<CatValue>, name: string, found: Option<Candidate>) returns (r: Option<Candidate>)
    ensures r == Keep(found, FirstMatch(VariablePairs(s, vars), name))
  {
    r := found;
    var l := 0;
    while l < |vars|
      invariant 0 <= l <= |vars|
      invariant r == Keep(found, FirstMatch(VariablePairs(s, vars[..l]), name))
    {
      var v := vars[l];
      assert VariablePairs(s, vars[..l + 1]) == VariablePairs(s, vars[..l]) + [(s, v)];
      FirstMatchSnoc(VariablePairs(s, vars[..l]), (s, v), name);
      if IsMatch((s, v), name) && r.None? {
        r := Some((s, v));
      }
      l := l + 1;
    }
    assert vars[..l] == vars;
  }

  lemma DatasetsCandidatesSnoc(ds: seq<CatValue>, i: nat, id: string)
    requires i < |ds| && DatasetsCandidates(ds[..i], id).Ok?
    ensures DatasetServices(ds[i], id).Err? ==>
      DatasetsCandidates(ds[..i + 1], id) == Err(DatasetServices(ds[i], id).error)
    ensures DatasetServices(ds[i], id).Ok? ==>
      DatasetsCandidates(ds[..i + 1], id) ==
        Ok(DatasetsCandidates(ds[..i], id).value + ServicesCandidates(DatasetServices(ds[i], id).value))
  {
    assert ds[..i + 1][..i] == ds[..i];
  }

  /** The loop over the datasets of one product. */
  method ScanDatasets(datasets: seq<CatValue>, id: string, name: string, found: Option<Candidate>)
    returns (r: Result<Option<Candidate>, CmemsError>)
    ensures DatasetsCandidates(datasets, id).Err? ==> r == Err(DatasetsCandidates(datasets, id).error)
    ensures DatasetsCandidates(datasets, id).Ok? ==> r == Ok(Keep(found, FirstMatch(DatasetsCandidates(datasets, id).value, name)))
  {
    var acc := found;
    var j := 0;
    while j < |datasets|
      invariant 0 <= j <= |datasets|
      invariant DatasetsCandidates(datasets[..j], id).Ok?
      invariant acc == Keep(found, FirstMatch(DatasetsCandidates(datasets[..j], id).value, name))
    {
      DatasetsCandidatesSnoc(datasets, j, id);
      var services := DatasetServices(datasets[j], id);
      if services.Err? {
        DatasetsCandidatesPrefixErr(datasets, id, j + 1);
        return Err(services.error);
      }
      ghost var before := DatasetsCandidates(datasets[..j], id).value;
      FirstMatchAppend(before, ServicesCandidates(services.value), name);
      acc := ScanServices(services.value, name, acc);
      j := j + 1;
    }
    assert datasets[..j] == datasets;
    r := Ok(acc);
  }

  lemma ProductsCandidatesSnoc(ps: seq<CatValue>, i: nat, id: string)
    requires i < |ps| && ProductsCandidates(ps[..i], id).Ok?
    ensures ProductCandidates(ps[i], id).Err? ==>
      ProductsCandidates(ps[..i + 1], id) == Err(ProductCandidates(ps[i], id).error)
    ensures ProductCandidates(ps[i], id).Ok? ==>
      ProductsCandidates(ps[..i + 1], id) ==
        Ok(ProductsCandidates(ps[..i], id).value + ProductCandidates(ps[i], id).value)
  {
    assert ps[..i + 1][..i] == ps[..i];
  }

  /** The loop over the products of the catalogue. */
  method ScanProducts(products: seq<CatValue>, id: string, name: string) returns (r: Result<Option<Candidate>, CmemsError>)
    ensures ProductsCandidates(products, id).Err? ==> r == Err(ProductsCandidates(products, id).error)
    ensures ProductsCandidates(products, id).Ok? ==> r == Ok(FirstMatch(ProductsCandidates(products, id).value, name))
  {
    var found: Option<Candidate> := None;
    var i := 0;
    while i < |products|
      invariant 0 <= i <= |products|
      invariant ProductsCandidates(products[..i], id).Ok?
      invariant found == FirstMatch(ProductsCandidates(products[..i], id).value, name)
    {
      ProductsCandidatesSnoc(products, i, id);
      var datasets := ProductDatasets(products[i]);
      if datasets.Err? {
        ProductsCandidatesPrefixErr(products, id, i + 1);
        return Err(datasets.error);
      }
      var scan := ScanDatasets(datasets.value, id, name, found);
      if scan.Err? {
        ProductsCandidatesPrefixErr(products, id, i + 1);
        return Err(scan.error);
      }
      FirstMatchAppend(ProductsCandidates(products[..i], id).value, ProductCandidates(products[i], id).value, name);
      found := scan.value;
      i := i + 1;
    }
    assert products[..i] == products;
    r := Ok(found);
  }

  predicate AllCandidatesOk(cs: seq<Candidate>) {
    forall i :: 0 <= i < |cs| ==> ServiceWellFormed(cs[i].0) && VariableWellFormed(cs[i].1)
  }

  lemma AllCandidatesOkAppend(a: seq<Candidate>, b: seq<Candidate>)
    requires AllCandidatesOk(a) && AllCandidatesOk(b)
    ensures AllCandidatesOk(a + b)
  {
    forall i | 0 <= i < |a + b|
      ensures ServiceWellFormed((a + b)[i].0) && VariableWellFormed((a + b)[i].1)
    {
      if i >= |a| {
        assert (a + b)[i] == b[i - |a|];
      }
    }
  }

  lemma {:induction false} ServicesCandidatesOk(ss: seq<CatValue>)
    ensures AllCandidatesOk(ServicesCandidates(ss))
  {
    if ss != [] {
      ServicesCandidatesOk(ss[..|ss| - 1]);
      var s := ss[|ss| - 1];
      if ServiceWellFormed(s) {
        var vs := Items(Field(s, "variables"));
        assert forall i :: 0 <= i < |vs| ==> vs[i] in Field(s, "variables").value.items;
      }
      AllCandidatesOkAppend(ServicesCandidates(ss[..|ss| - 1]), ServiceCandidates(s));
    }
  }

  lemma {:induction false} DatasetsCandidatesOk(ds: seq<CatValue>, id: string)
    requires DatasetsCandidates(ds, id).Ok?
    ensures AllCandidatesOk(DatasetsCandidates(ds, id).value)
  {
    if ds != [] {
      DatasetsCandidatesOk(ds[..|ds| - 1], id);
      var services := DatasetServices(ds[|ds| - 1], id);
      ServicesCandidatesOk(services.value);
      AllCandidatesOkAppend(DatasetsCandidates(ds[..|ds| - 1], id).value, ServicesCandidates(services.value));
    }
  }

  lemma {:induction false} ProductsCandidatesOk(ps: seq<CatValue>, id: string)
    requires ProductsCandidates(ps, id).Ok?
    ensures AllCandidatesOk(ProductsCandidates(ps, id).value)
  {
    if ps != [] {
      ProductsCandidatesOk(ps[..|ps| - 1], id);
      DatasetsCandidatesOk(ProductDatasets(ps[|ps| - 1]).value, id);
      AllCandidatesOkAppend(ProductsCandidates(ps[..|ps| - 1], id).value, ProductCandidates(ps[|ps| - 1], id).value);
    }
  }

  /** The outcome of the catalogue search: the first matching (service,
      variable) pair of the dataset's records, or the error that stops it. */
  function Selected(cat: CatValue, id: string, name: string): (r: Result<Candidate, CmemsError>)
    ensures r.Ok? ==> IsMatch(r.value, name) && ServiceWellFormed(r.value.0) && VariableWellFormed(r.value.1)
    ensures r == Err(NoMatchingVariable) <==> (Field(cat, "products").Some? && Field(cat, "products").value.CList? &&
      var cands := ProductsCandidates(Field(cat, "products").value.items, id);
      cands.Ok? && forall i :: 0 <= i < |cands.value| ==> !IsMatch(cands.value[i], name))
  {
    if !(cat.CDict? || cat.CNone?) then Err(DescribeReturnedNonDict)
    else if cat.CNone? || cat.entries == [] then Err(DatasetNotFound)
    else if !(Field(cat, "products").Some? && Field(cat, "products").value.CList?) then Err(NoProductsList)
    else
      match ProductsCandidates(Field(cat, "products").value.items, id)
      case Err(e) => Err(e)
      case Ok(cands) =>
        FirstMatchNone(cands, name);
        if FirstMatch(cands, name).None? then Err(NoMatchingVariable)
        else
          ProductsCandidatesOk(Field(cat, "products").value.items, id);
          FirstMatchIn(cands, name);
          Ok(FirstMatch(cands, name).value)
  }

  /** The catalogue search: the service and variable records the dataset is
      read from. */
  method SelectService(cat: CatValue, id: string, name: string) returns (r: Result<Candidate, CmemsError>)
    ensures r == Selected(cat, id, name)
    ensures r.Ok? ==> IsMatch(r.value, name) && ServiceWellFormed(r.value.0) && VariableWellFormed(r.value.1)
  {
    if !(cat.CDict? || cat.CNone?) {
      return Err(DescribeReturnedNonDict);
    }
    if cat.CNone? || |cat.entries| == 0 {
      return Err(DatasetNotFound);
    }
    var products := Field(cat, "products");
    if products.None? || !products.value.CList? {
      return Err(NoProductsList);
    }
    var scan := ScanProducts(products.value.items, id, name);
    if scan.Err? {
      return Err(scan.error);
    }
    if scan.value.None? {
      return Err(NoMatchingVariable);
    }
    r := Ok(scan.value.value);
  }

  // ---------------------------------------------------------------------------
  // Coordinates and dimensions

  const KnownCoordinates: seq<string> := ["time", "depth", "latitude", "longitude"]

  /** A coordinate record with a recognised `coordinates_id`. */
  predicate CoordinateIdOk(c: CatValue) {
    HasKey(c, "coordinates_id") && Field(c, "coordinates_id").value.CStr? &&
    Field(c, "coordinates_id").value.s in KnownCoordinates
  }

  function CoordinateId(c: CatValue): string
    requires CoordinateIdOk(c)
  {
    Field(c, "coordinates_id").value.s
  }

  /** One pass of the loop over coordinate records: `d[id] = c` after the
      three checks. */
  function AddCoordinate(d: Dict<string, CatValue>, c: CatValue): Result<Dict<string, CatValue>, CmemsError> {
    if !HasKey(c, "coordinates_id") then Err(CoordinateNotADict)
    else if !CoordinateIdOk(c) then Err(UnknownCoordinate(Field(c, "coordinates_id").value))
    else if CoordinateId(c) in Keys(d) then Err(DuplicateCoordinate(CoordinateId(c)))
    else Ok(d + [(CoordinateId(c), c)])
  }

  /** The `coordinates` dict the loop over the variable's coordinate records
      builds, or the error of the first record it rejects. */
  function CoordinatesSpec(cs: seq<CatValue>): (r: Result<Dict<string, CatValue>, CmemsError>)
    ensures r.Ok? ==> |r.value| == |cs| && forall i :: 0 <= i < |cs| ==> r.value[i].1 == cs[i]
    ensures r.Err? ==> r.error.CoordinateNotADict? || r.error.UnknownCoordinate? || r.error.DuplicateCoordinate?
  {
    if cs == [] then Ok([])
    else
      match CoordinatesSpec(cs[..|cs| - 1])
      case Err(e) => Err(e)
      case Ok(d) => AddCoordinate(d, cs[|cs| - 1])
  }

  predicate DistinctCoordinateIds(cs: seq<CatValue>)
    requires forall i :: 0 <= i < |cs| ==> CoordinateIdOk(cs[i])
  {
    forall i, j :: 0 <= i < j < |cs| ==> CoordinateId(cs[i]) != CoordinateId(cs[j])
  }

  predicate CoordinatesValid(cs: seq<CatValue>) {
    (forall i :: 0 <= i < |cs| ==> CoordinateIdOk(cs[i])) && DistinctCoordinateIds(cs)
  }

  /** The coordinate records are accepted exactly when each has a recognised
      id and no id repeats; the dict then maps each id to its record, in order. */
  lemma {:induction false} CoordinatesSpecValid(cs: seq<CatValue>)
    ensures CoordinatesSpec(cs).Ok? <==> CoordinatesValid(cs)
    ensures CoordinatesSpec(cs).Ok? ==>
      |CoordinatesSpec(cs).value| == |cs| &&
      forall i :: 0 <= i < |cs| ==> CoordinatesSpec(cs).value[i] == (CoordinateId(cs[i]), cs[i])
  {
    if cs != [] {
      var init := cs[..|cs| - 1];
      CoordinatesSpecValid(init);
      if CoordinatesSpec(init).Err? {
        InvalidPrefix(cs);
      } else {
        assert cs == init + [cs[|cs| - 1]];
        CoordinateAdded(init, cs[|cs| - 1], CoordinatesSpec(init).value);
      }
    }
  }

  /** A rejected prefix makes the whole list invalid. */
  lemma InvalidPrefix(cs: seq<CatValue>)
    requires cs != [] && !CoordinatesValid(cs[..|cs| - 1])
    ensures !CoordinatesValid(cs)
  {
    var init := cs[..|cs| - 1];
    assert forall i :: 0 <= i < |init| ==> init[i] == cs[i];
  }

  /** One more record after an accepted prefix: accepted exactly when the
      whole list is valid, and then appended under its id. */
  lemma {:induction false} CoordinateAdded(init: seq<CatValue>, c: CatValue, d: Dict<string, CatValue>)
    requires CoordinatesValid(init) && CoordinatesSpec(init) == Ok(d)
    requires |d| == |init| && forall i :: 0 <= i < |init| ==> d[i] == (CoordinateId(init[i]), init[i])
    ensures CoordinatesSpec(init + [c]).Ok? <==> CoordinatesValid(init + [c])
    ensures CoordinatesSpec(init + [c]).Ok? ==>
      |CoordinatesSpec(init + [c]).value| == |init| + 1 &&
      forall i :: 0 <= i <= |init| ==> CoordinatesSpec(init + [c]).value[i] == (CoordinateId((init + [c])[i]), (init + [c])[i])
  {
    var cs := init + [c];
    assert cs[..|cs| - 1] == init;
    assert CoordinatesSpec(cs) == AddCoordinate(d, c);
    if !CoordinateIdOk(c) {
      assert !CoordinatesValid(cs) by {
        assert cs[|cs| - 1] == c;
      }
    } else if CoordinateId(c) in Keys(d) {
      DuplicateCoordinateInvalid(init, c, d);
    } else {
      FreshCoordinateValid(init, c, d);
    }
  }

  lemma {:induction false} DuplicateCoordinateInvalid(init: seq<CatValue>, c: CatValue, d: Dict<string, CatValue>)
    requires CoordinatesValid(init) && CoordinateIdOk(c)
    requires |d| == |init| && forall i :: 0 <= i < |init| ==> d[i] == (CoordinateId(init[i]), init[i])
    requires CoordinateId(c) in Keys(d)
    ensures !CoordinatesValid(init + [c])
  {
    var cs := init + [c];
    var k :| 0 <= k < |d| && Keys(d)[k] == CoordinateId(c);
    assert cs[k] == init[k] && cs[|cs| - 1] == c;
    assert CoordinateId(cs[k]) == CoordinateId(cs[|cs| - 1]);
  }

  lemma {:induction false} FreshCoordinateValid(init: seq<CatValue>, c: CatValue, d: Dict<string, CatValue>)
    requires CoordinatesValid(init) && CoordinateIdOk(c)
    requires |d| == |init| && forall i :: 0 <= i < |init| ==> d[i] == (CoordinateId(init[i]), init[i])
    requires CoordinateId(c) !in Keys(d)
    ensures CoordinatesValid(init + [c])
    ensures forall i :: 0 <= i <= |init| ==> (d + [(CoordinateId(c), c)])[i] == (CoordinateId((init + [c])[i]), (init + [c])[i])
  {
    var cs := init + [c];
    forall i | 0 <= i < |init| ensures CoordinateId(cs[i]) != CoordinateId(c) {
      assert Keys(d)[i] == CoordinateId(init[i]);
    }
  }

  /** The loop that fills `coordinates` from the variable's coordinate records. */
  method CollectCoordinates(cs: seq<CatValue>) returns (r: Result<Dict<string, CatValue>, CmemsError>)
    ensures r == CoordinatesSpec(cs)
  {
    var coordinates: Dict<string, CatValue> := [];
    var i := 0;
    while i < |cs|
      invariant 0 <= i <= |cs|
      invariant CoordinatesSpec(cs[..i]) == Ok(coordinates)
    {
      var c := cs[i];
      assert cs[..i + 1][..i] == cs[..i];
      ghost var next := CoordinatesSpec(cs[..i + 1]);
      if !HasKey(c, "coordinates_id") {
        CoordinatesSpecPrefixErr(cs, i + 1);
        return Err(CoordinateNotADict);
      }
      var id := Field(c, "coordinates_id").value;
      if !(id.CStr? && id.s in KnownCoordinates) {
        CoordinatesSpecPrefixErr(cs, i + 1);
        return Err(UnknownCoordinate(id));
      }
      if id.s in Keys(coordinates) {
        CoordinatesSpecPrefixErr(cs, i + 1);
        return Err(DuplicateCoordinate(id.s));
      }
      SetAbsent(coordinates, id.s, c);
      coordinates := Set(coordinates, id.s, c);
      i := i + 1;
    }
    assert cs[..i] == cs;
    r := Ok(coordinates);
  }

  lemma {:induction false} CoordinatesSpecPrefixErr(cs: seq<CatValue>, i: nat)
    requires i <= |cs| && CoordinatesSpec(cs[..i]).Err?
    ensures CoordinatesSpec(cs) == CoordinatesSpec(cs[..i])
    decreases |cs| - i
  {
    if i < |cs| {
      assert cs[..i + 1][..i] == cs[..i];
      CoordinatesSpecPrefixErr(cs, i + 1);
    } else {
      assert cs[..i] == cs;
    }
  }

  /** The dimension letters in t, z, y, x order, one per coordinate present. */
  function DimensionsOf(coordinates: Dict<string, CatValue>): string {
    Letters("time" in Keys(coordinates), "depth" in Keys(coordinates),
            "latitude" in Keys(coordinates), "longitude" in Keys(coordinates))
  }

  function Letters(t: bool, z: bool, y: bool, x: bool): string {
    (if t then "t" else "") + (if z then "z" else "") + (if y then "y" else "") + (if x then "x" else "")
  }

  /** The position of a dimension letter in "tzyx". */
  function LetterRank(c: char): int {
    if c == 't' then 0 else if c == 'z' then 1 else if c == 'y' then 2 else if c == 'x' then 3 else 4
  }

  lemma LettersPresent(t: bool, z: bool, y: bool, x: bool)
    ensures var r := Letters(t, z, y, x);
      ('t' in r <==> t) && ('z' in r <==> z) && ('y' in r <==> y) && ('x' in r <==> x)
  {
  }

  lemma LettersOrdered(t: bool, z: bool, y: bool, x: bool)
    ensures var r := Letters(t, z, y, x);
      forall i, j :: 0 <= i < j < |r| ==> LetterRank(r[i]) < LetterRank(r[j])
  {
  }

  lemma LettersSupported(t: bool, z: bool, y: bool, x: bool)
    ensures Letters(t, z, y, x) in ["yx", "zyx", "tyx", "tzyx"] <==> y && x
  {
    var r := Letters(t, z, y, x);
    if y && x {
      assert r == ["yx", "zyx", "tyx", "tzyx"][(if t then 2 else 0) + (if z then 1 else 0)];
    } else {
      LettersPresent(t, z, y, x);
      assert forall i :: 0 <= i < 4 ==> 'y' in ["yx", "zyx", "tyx", "tzyx"][i] && 'x' in ["yx", "zyx", "tyx", "tzyx"][i];
    }
  }

  /** Each coordinate present contributes its letter, and the letters come in
      t, z, y, x order. */
  lemma DimensionsOrdered(coordinates: Dict<string, CatValue>)
    ensures var r := DimensionsOf(coordinates);
      ('t' in r <==> "time" in Keys(coordinates)) && ('z' in r <==> "depth" in Keys(coordinates)) &&
      ('y' in r <==> "latitude" in Keys(coordinates)) && ('x' in r <==> "longitude" in Keys(coordinates)) &&
      forall i, j :: 0 <= i < j < |r| ==> LetterRank(r[i]) < LetterRank(r[j])
  {
    LettersPresent("time" in Keys(coordinates), "depth" in Keys(coordinates),
                   "latitude" in Keys(coordinates), "longitude" in Keys(coordinates));
    LettersOrdered("time" in Keys(coordinates), "depth" in Keys(coordinates),
                   "latitude" in Keys(coordinates), "longitude" in Keys(coordinates));
  }

  const SupportedDimensions: seq<string> := ["yx", "zyx", "tyx", "tzyx"]

  /** The dimensions are supported exactly when both latitude and longitude
      are among the coordinates. */
  lemma DimensionsSupported(coordinates: Dict<string, CatValue>)
    ensures DimensionsOf(coordinates) in SupportedDimensions <==>
      "latitude" in Keys(coordinates) && "longitude" in Keys(coordinates)
  {
    LettersSupported("time" in Keys(coordinates), "depth" in Keys(coordinates),
                     "latitude" in Keys(coordinates), "longitude" in Keys(coordinates));
  }

  /** The dimension check that follows the dimension string. */
  function CheckDimensions(coordinates: Dict<string, CatValue>): (r: Result<string, CmemsError>)
    ensures r.Ok? <==> "latitude" in Keys(coordinates) && "longitude" in Keys(coordinates)
    ensures r.Ok? ==> r.value == DimensionsOf(coordinates) && r.value in SupportedDimensions
  {
    DimensionsSupported(coordinates);
    var dims := DimensionsOf(coordinates);
    if dims in SupportedDimensions then Ok(dims) else Err(UnsupportedDimensions(dims))
  }

  /** The attributes of the longitude and latitude records checked before the
      horizontal geometry is computed, in the order the nested loop visits them. */
  const LonLatChecks: seq<(string, string)> := [
    ("step", "longitude"), ("step", "latitude"),
    ("minimum_value", "longitude"), ("minimum_value", "latitude"),
    ("maximum_value", "longitude"), ("maximum_value", "latitude")]

  predicate AttributeNumeric(coordinates: Dict<string, CatValue>, check: (string, string)) {
    var (attr, coord) := check;
    Get(coordinates, coord).Some? && Field(Get(coordinates, coord).value, attr).Some? &&
    IsNumeric(Field(Get(coordinates, coord).value, attr).value)
  }

  /** The first of the checks from position `n` on that fails, if any. */
  function LonLatErrorFrom(coordinates: Dict<string, CatValue>, n: nat): Option<CmemsError>
    decreases |LonLatChecks| - n
  {
    if n >= |LonLatChecks| then None
    else if !AttributeNumeric(coordinates, LonLatChecks[n]) then Some(LonLatAttributeMissing(LonLatChecks[n].1, LonLatChecks[n].0))
    else LonLatErrorFrom(coordinates, n + 1)
  }

  /** The error for the first longitude or latitude attribute that is missing
      or not a number. */
  function LonLatError(coordinates: Dict<string, CatValue>): Option<CmemsError> {
    LonLatErrorFrom(coordinates, 0)
  }

  /** Once the checks before `failed` pass and the one at `failed` does not,
      the error is the one for `failed`. */
  lemma {:induction false} LonLatErrorAt(coordinates: Dict<string, CatValue>, n: nat, failed: nat)
    requires n <= failed < |LonLatChecks| && !AttributeNumeric(coordinates, LonLatChecks[failed])
    requires forall m :: n <= m < failed ==> AttributeNumeric(coordinates, LonLatChecks[m])
    ensures LonLatErrorFrom(coordinates, n) == Some(LonLatAttributeMissing(LonLatChecks[failed].1, LonLatChecks[failed].0))
    decreases failed - n
  {
    if n < failed {
      LonLatErrorAt(coordinates, n + 1, failed);
    }
  }

  lemma {:induction false} LonLatNoError(coordinates: Dict<string, CatValue>, n: nat)
    requires forall m :: n <= m < |LonLatChecks| ==> AttributeNumeric(coordinates, LonLatChecks[m])
    ensures LonLatErrorFrom(coordinates, n) == None
    decreases |LonLatChecks| - n
  {
    if n < |LonLatChecks| {
      LonLatNoError(coordinates, n + 1);
    }
  }

  /** The nested loop over attribute names and the two horizontal coordinates:
      the first attribute that is missing or not a number is reported. */
  method CheckLonLatAttributes(coordinates: Dict<string, CatValue>) returns (r: Option<CmemsError>, ghost failed: nat)
    ensures r == LonLatError(coordinates)
    ensures r.None? <==> forall n :: 0 <= n < |LonLatChecks| ==> AttributeNumeric(coordinates, LonLatChecks[n])
    ensures r.Some? ==>
      failed < |LonLatChecks| && !AttributeNumeric(coordinates, LonLatChecks[failed]) &&
      r.value == LonLatAttributeMissing(LonLatChecks[failed].1, LonLatChecks[failed].0) &&
      forall n :: 0 <= n < failed ==> AttributeNumeric(coordinates, LonLatChecks[n])
  {
    var keys := ["step", "minimum_value", "maximum_value"];
    var coords := ["longitude", "latitude"];
    failed := 0;
    for k := 0 to |keys|
      invariant forall n :: 0 <= n < 2 * k ==> AttributeNumeric(coordinates, LonLatChecks[n])
    {
      for c := 0 to |coords|
        invariant forall n :: 0 <= n < 2 * k + c ==> AttributeNumeric(coordinates, LonLatChecks[n])
      {
        assert LonLatChecks[2 * k + c] == (keys[k], coords[c]);
        var rec := Get(coordinates, coords[c]);
        if rec.None? || Field(rec.value, keys[k]).None? || !IsNumeric(Field(rec.value, keys[k]).value) {
          failed := 2 * k + c;
          LonLatErrorAt(coordinates, 0, failed);
          return Some(LonLatAttributeMissing(coords[c], keys[k])), failed;
        }
      }
    }
    LonLatNoError(coordinates, 0);
    r := None;
  }

  // ---------------------------------------------------------------------------
  // Depth

  predicate AllNumeric(vs: seq<CatValue>) {
    forall i :: 0 <= i < |vs| ==> IsNumeric(vs[i])
  }

  function Abs(x: real): real { if x < 0.0 then -x else x }

  function AbsValues(vs: seq<CatValue>): (r: seq<real>)
    requires AllNumeric(vs)
    ensures |r| == |vs| && forall i :: 0 <= i < |vs| ==> r[i] == Abs(NumValue(vs[i]))
  {
    seq(|vs|, i requires 0 <= i < |vs| => Abs(NumValue(vs[i])))
  }

  /** How many values are `>= 0`. */
  function CountNonNegative(vs: seq<CatValue>): nat
    requires AllNumeric(vs)
  {
    if vs == [] then 0
    else CountNonNegative(vs[..|vs| - 1]) + (if NumValue(vs[|vs| - 1]) >= 0.0 then 1 else 0)
  }

  predicate MixedSigns(vs: seq<CatValue>)
    requires AllNumeric(vs)
  {
    (exists i :: 0 <= i < |vs| && NumValue(vs[i]) >= 0.0) && (exists j :: 0 <= j < |vs| && NumValue(vs[j]) < 0.0)
  }

  /** The count lies strictly between zero and the length exactly when the
      signs are mixed. */
  lemma {:induction false} CountNonNegativeMixed(vs: seq<CatValue>)
    requires AllNumeric(vs)
    ensures CountNonNegative(vs) <= |vs|
    ensures CountNonNegative(vs) == 0 <==> forall i :: 0 <= i < |vs| ==> NumValue(vs[i]) < 0.0
    ensures CountNonNegative(vs) == |vs| <==> forall i :: 0 <= i < |vs| ==> NumValue(vs[i]) >= 0.0
  {
    if vs != [] {
      var init := vs[..|vs| - 1];
      assert forall i :: 0 <= i < |init| ==> init[i] == vs[i];
      CountNonNegativeMixed(init);
    }
  }

  predicate StrictlyIncreasing(s: seq<real>) {
    forall i :: 0 <= i < |s| - 1 ==> s[i] < s[i + 1]
  }

  predicate StrictlyDecreasing(s: seq<real>) {
    forall i :: 0 <= i < |s| - 1 ==> s[i] > s[i + 1]
  }

  function Reverse(s: seq<real>): (r: seq<real>)
    ensures |r| == |s| && forall i :: 0 <= i < |s| ==> r[i] == s[|s| - 1 - i]
  {
    if s == [] then [] else [s[|s| - 1]] + Reverse(s[..|s| - 1])
  }

  lemma {:induction false} ReversePermutes(s: seq<real>)
    ensures multiset(Reverse(s)) == multiset(s)
  {
    if s != [] {
      ReversePermutes(s[..|s| - 1]);
      assert s == s[..|s| - 1] + [s[|s| - 1]];
    }
  }

  /** `sort()` of a strictly monotone list: itself if ascending, else reversed. */
  function SortMonotone(s: seq<real>): (r: seq<real>)
    requires StrictlyIncreasing(s) || StrictlyDecreasing(s)
    ensures StrictlyIncreasing(r) && multiset(r) == multiset(s)
  {
    ReversePermutes(s);
    if StrictlyIncreasing(s) then s else Reverse(s)
  }

  /** The depth checks in the order they run, and the sorted absolute depths
      when all pass. */
  function DepthsSpec(values: seq<CatValue>): Result<seq<real>, CmemsError> {
    if !AllNumeric(values) then Err(DepthValueNotNumeric)
    else if MixedSigns(values) then Err(DepthMixedSigns)
    else if !StrictlyIncreasing(AbsValues(values)) && !StrictlyDecreasing(AbsValues(values)) then Err(DepthNotMonotonic)
    else Ok(SortMonotone(AbsValues(values)))
  }

  /** The depth checks and normalisation: numbers only, no mixed signs, the
      absolute values strictly monotone, then sorted ascending. */
  method NormaliseDepths(values: seq<CatValue>) returns (r: Result<seq<real>, CmemsError>)
    ensures r == DepthsSpec(values)
    ensures !AllNumeric(values) ==> r == Err(DepthValueNotNumeric)
    ensures AllNumeric(values) && MixedSigns(values) ==> r == Err(DepthMixedSigns)
    ensures AllNumeric(values) && !MixedSigns(values) ==> (r.Ok? <==> StrictlyIncreasing(AbsValues(values)) || StrictlyDecreasing(AbsValues(values)))
    ensures AllNumeric(values) && !MixedSigns(values) && r.Err? ==> r.error == DepthNotMonotonic
    ensures r.Ok? ==> AllNumeric(values) && StrictlyIncreasing(r.value)
    ensures r.Ok? ==> |r.value| == |values| && multiset(r.value) == multiset(AbsValues(values))
    ensures r.Ok? ==> forall i :: 0 <= i < |r.value| ==> r.value[i] >= 0.0
  {
    var counted := CountDepths(values);
    if counted.None? {
      return Err(DepthValueNotNumeric);
    }
    var numPositive := counted.value;
    assert 0 < numPositive < |values| <==> MixedSigns(values) by { CountNonNegativeMixed(values); }
    if 0 < numPositive < |values| {
      return Err(DepthMixedSigns);
    }
    var zCoords := AbsValues(values);
    if !StrictlyIncreasing(zCoords) && !StrictlyDecreasing(zCoords) {
      return Err(DepthNotMonotonic);
    }
    SortedDepths(values);
    r := Ok(SortMonotone(zCoords));
  }

  /** The counting pass of the depth checks: every value numeric, and how many
      of them are non-negative. */
  method CountDepths(values: seq<CatValue>) returns (r: Option<nat>)
    ensures r.None? <==> !AllNumeric(values)
    ensures r.Some? ==> r.value == CountNonNegative(values)
  {
    var numPositive := 0;
    for i := 0 to |values|
      invariant AllNumeric(values[..i])
      invariant numPositive == CountNonNegative(values[..i])
    {
      assert values[..i + 1][..i] == values[..i];
      if !IsNumeric(values[i]) {
        return None;
      }
      if NumValue(values[i]) >= 0.0 {
        numPositive := numPositive + 1;
      }
    }
    assert values[..|values|] == values;
    return Some(numPositive);
  }

  /** The sorted absolute depths keep the length and are all non-negative. */
  lemma SortedDepths(values: seq<CatValue>)
    requires AllNumeric(values)
    requires StrictlyIncreasing(AbsValues(values)) || StrictlyDecreasing(AbsValues(values))
    ensures |SortMonotone(AbsValues(values))| == |values|
    ensures forall i :: 0 <= i < |SortMonotone(AbsValues(values))| ==> SortMonotone(AbsValues(values))[i] >= 0.0
  {
    var abs := AbsValues(values);
    var z := SortMonotone(abs);
    assert |multiset(z)| == |multiset(abs)|;
    forall i | 0 <= i < |z| ensures z[i] >= 0.0 {
      assert z[i] in multiset(abs);
    }
  }

  // ---------------------------------------------------------------------------
  // Time

  const TimeUnitNames: seq<string> := ["milliseconds", "seconds", "minutes", "hours", "days"]

  /** The `units` text lower-cased and split on whitespace, accepted when it
      reads "<unit> since <date> <time> ...". */
  function ParseTimeUnits(units: string): (r: Result<seq<string>, CmemsError>)
    ensures r.Err? ==> r.error == TimeUnitsUnparsable(units)
    ensures r.Ok? ==> |r.value| >= 4 && r.value[0] in TimeUnitNames && r.value[1] == "since"
    ensures r.Ok? ==> Concat(r.value) == RemoveSpaces(Lower(units))
  {
    WordsConcat(Lower(units));
    var w := Words(Lower(units));
    if |w| < 4 || w[0] !in TimeUnitNames || w[1] != "since" then Err(TimeUnitsUnparsable(units)) else Ok(w)
  }

  /** The accepted tokens are the whitespace-separated words of the lower-cased
      text: none is empty or holds whitespace, and together they spell the text
      without its whitespace. */
  lemma TimeUnitTokens(units: string)
    ensures ParseTimeUnits(units).Ok? <==>
      var w := Words(Lower(units)); |w| >= 4 && w[0] in TimeUnitNames && w[1] == "since"
    ensures ParseTimeUnits(units).Ok? ==>
      var w := ParseTimeUnits(units).value;
      Concat(w) == RemoveSpaces(Lower(units)) &&
      forall k :: 0 <= k < |w| ==> |w[k]| > 0 && forall i :: 0 <= i < |w[k]| ==> !IsSpace(w[k][i])
  {
    WordsConcat(Lower(units));
    WordsHaveNoSpace(Lower(units));
  }

  lemma LowerIdempotent(s: string)
    ensures Lower(Lower(s)) == Lower(s)
  {
    assert forall i :: 0 <= i < |s| ==> LowerChar(LowerChar(s[i])) == LowerChar(s[i]);
  }

  /** The units are matched without regard to ASCII case. */
  lemma TimeUnitsIgnoreCase(units: string)
    ensures ParseTimeUnits(Lower(units)).Ok? <==> ParseTimeUnits(units).Ok?
    ensures ParseTimeUnits(units).Ok? ==> ParseTimeUnits(Lower(units)) == ParseTimeUnits(units)
  {
    LowerIdempotent(units);
  }

  /** The time increment unit reported for a units token; milliseconds are
      reported as seconds. */
  function IncrementUnit(token: string): string {
    if token == "milliseconds" || token == "seconds" then "second"
    else if token == "minutes" then "minute"
    else if token == "hours" then "hour"
    else "day"
  }

  /** The number of time steps, the increment and its unit. The increment and
      unit stay None when the listed values do not reveal a constant step. */
  datatype TimeAxis = TimeAxis(count: int, increment: Option<real>, unit: Option<string>)

  /** `int(math.trunc(x))`. */
  function Trunc(x: real): int {
    if x >= 0.0 then x.Floor else -((-x).Floor)
  }

  /** The geometry of a time axis given by its step, minimum and maximum. */
  function ConstantStepAxis(token: string, step: real, minimum: real, maximum: real): (r: Result<TimeAxis, CmemsError>)
    requires token in TimeUnitNames
    ensures r.Err? <==> step == 0.0
  {
    if step == 0.0 then Err(TimeStepZero)
    else
      var numSteps := (maximum - minimum + step) / step;
      Ok(TimeAxis(Trunc(numSteps), Some(if token == "milliseconds" then step / 1000.0 else step), Some(IncrementUnit(token))))
  }

  /** A step in milliseconds is reported as the same span in seconds, and when
      the extent is a whole number of steps the axis covers it exactly. */
  lemma ConstantStepAxisSpan(token: string, step: real, minimum: real, maximum: real)
    requires token in TimeUnitNames && step != 0.0
    ensures var a := ConstantStepAxis(token, step, minimum, maximum).value;
      a.unit.Some? && a.increment.Some? &&
      (token == "milliseconds" ==> a.unit.value == "second" && a.increment.value * 1000.0 == step) &&
      (token != "milliseconds" ==> a.increment.value == step && a.unit.value + "s" == token)
    ensures var n := (maximum - minimum + step) / step;
      n == n.Floor as real && n >= 0.0 ==> ConstantStepAxis(token, step, minimum, maximum).value.count as real * step == maximum - minimum + step
  {
  }

  /** What the datetime inference from the listed time values yields. */
  datatype InferredStep = InferredStep(increment: Option<real>, unit: Option<string>)

  /** The time-axis rules: the units must parse and their date must be readable
      (`sinceParses`); a complete step/minimum/maximum triple gives a constant
      step; otherwise a non-empty list of numeric values gives the count and
      `inferred` the step. */
  method TimeAxisOf(time: CatValue, sinceParses: bool, inferred: Result<InferredStep, CmemsError>)
    returns (r: Result<TimeAxis, CmemsError>)
    ensures r == TimeAxisSpec(time, sinceParses, inferred)
  {
    var units := Field(time, "units");
    if units.None? || !units.value.CStr? {
      return Err(TimeUnitsMissing);
    }
    var tokens := ParseTimeUnits(units.value.s);
    if tokens.Err? {
      return Err(tokens.error);
    }
    if !sinceParses {
      return Err(TimeUnitsUnparsable(units.value.s));
    }
    var keys := ["step", "minimum_value", "maximum_value"];
    var constantStep := true;
    for k := 0 to |keys|
      invariant constantStep <==> forall m :: 0 <= m < k ==> NumericAttribute(time, keys[m])
    {
      if !NumericAttribute(time, keys[k]) {
        constantStep := false;
      }
    }
    assert keys[0] == "step" && keys[1] == "minimum_value" && keys[2] == "maximum_value";
    assert constantStep <==> HasConstantStep(time);
    if constantStep {
      r := ConstantStepAxis(tokens.value[0], NumValue(Field(time, "step").value),
        NumValue(Field(time, "minimum_value").value), NumValue(Field(time, "maximum_value").value));
    } else if IsNonEmptyList(Field(time, "values")) {
      var values := Field(time, "values").value.items;
      for i := 0 to |values|
        invariant AllNumeric(values[..i])
      {
        assert values[..i + 1][..i] == values[..i];
        if !IsNumeric(values[i]) {
          return Err(TimeValueNotNumeric);
        }
      }
      assert values[..|values|] == values;
      if inferred.Err? {
        return Err(inferred.error);
      }
      r := Ok(TimeAxis(|values|, inferred.value.increment, inferred.value.unit));
    } else {
      r := Err(TimeAttributesUnrecognised);
    }
  }

  predicate NumericAttribute(v: CatValue, attr: string) {
    Field(v, attr).Some? && IsNumeric(Field(v, attr).value)
  }

  predicate HasConstantStep(time: CatValue) {
    NumericAttribute(time, "step") && NumericAttribute(time, "minimum_value") && NumericAttribute(time, "maximum_value")
  }

  /** The `units` attribute when it is a string. */
  function UnitsOf(time: CatValue): Option<string> {
    if Field(time, "units").Some? && Field(time, "units").value.CStr? then Some(Field(time, "units").value.s) else None
  }

  /** The time-axis rules in the order they run: the units, their date, a
      constant step, then the listed values. */
  function TimeAxisSpec(time: CatValue, sinceParses: bool, inferred: Result<InferredStep, CmemsError>): Result<TimeAxis, CmemsError> {
    if UnitsOf(time).None? then Err(TimeUnitsMissing)
    else
      var units := UnitsOf(time).value;
      if ParseTimeUnits(units).Err? || !sinceParses then Err(TimeUnitsUnparsable(units))
      else if HasConstantStep(time) then
        ConstantStepAxis(ParseTimeUnits(units).value[0], NumValue(Field(time, "step").value),
          NumValue(Field(time, "minimum_value").value), NumValue(Field(time, "maximum_value").value))
      else if !IsNonEmptyList(Field(time, "values")) then Err(TimeAttributesUnrecognised)
      else if !AllNumeric(Field(time, "values").value.items) then Err(TimeValueNotNumeric)
      else if inferred.Err? then Err(inferred.error)
      else Ok(TimeAxis(|Field(time, "values").value.items|, inferred.value.increment, inferred.value.unit))
  }

  /** A time axis is read exactly when the units are a known unit `since` a
      readable date and either the step triple has a non-zero step or, without
      the triple, the listed values are all numbers and their step could be
      inferred. A constant step always yields an increment and its unit, and a
      list of values yields one step per value. */
  lemma TimeAxisSucceeds(time: CatValue, sinceParses: bool, inferred: Result<InferredStep, CmemsError>)
    ensures TimeAxisSpec(time, sinceParses, inferred).Ok? <==>
      UnitsOf(time).Some? && ParseTimeUnits(UnitsOf(time).value).Ok? && sinceParses &&
      ((HasConstantStep(time) && NumValue(Field(time, "step").value) != 0.0) ||
       (!HasConstantStep(time) && IsNonEmptyList(Field(time, "values")) && AllNumeric(Field(time, "values").value.items) && inferred.Ok?))
    ensures TimeAxisSpec(time, sinceParses, inferred).Ok? && HasConstantStep(time) ==>
      TimeAxisSpec(time, sinceParses, inferred).value.increment.Some? && TimeAxisSpec(time, sinceParses, inferred).value.unit.Some?
    ensures TimeAxisSpec(time, sinceParses, inferred).Ok? && !HasConstantStep(time) ==>
      TimeAxisSpec(time, sinceParses, inferred).value.count == |Field(time, "values").value.items|
  {
    if UnitsOf(time).Some? && ParseTimeUnits(UnitsOf(time).value).Ok? && sinceParses && HasConstantStep(time) &&
       NumValue(Field(time, "step").value) != 0.0 {
      ConstantStepAxisSpan(ParseTimeUnits(UnitsOf(time).value).value[0], NumValue(Field(time, "step").value),
        NumValue(Field(time, "minimum_value").value), NumValue(Field(time, "maximum_value").value));
    }
  }

  // ---------------------------------------------------------------------------
  // Properties read from the opened dataset

  /** The letter for a dimension of the data array. */
  function DimLetter(dim: string): Option<char> {
    if dim == "time" then Some('t')
    else if dim == "depth" then Some('z')
    else if dim == "latitude" then Some('y')
    else if dim == "longitude" then Some('x')
    else None
  }

  predicate AllKnownDims(dims: seq<string>) {
    forall i :: 0 <= i < |dims| ==> DimLetter(dims[i]).Some?
  }

  predicate DistinctLetters(s: string) {
    forall i, j :: 0 <= i < j < |s| ==> s[i] != s[j]
  }

  /** `set(s)`: the letters of `s`. */
  function LetterSet(s: string): set<char> {
    set i | 0 <= i < |s| :: s[i]
  }

  /** `len(s) != len(set(s))` is false exactly when the letters are distinct. */
  lemma {:induction false} DistinctLettersCard(s: string)
    ensures DistinctLetters(s) <==> |LetterSet(s)| == |s|
  {
    if s != [] {
      var init := s[..|s| - 1];
      DistinctLettersCard(init);
      LetterSetAppend(s);
      SetOfSeqBound(init);
      if DistinctLetters(s) {
        DistinctLettersInit(s);
      } else {
        RepeatedLetter(s);
      }
    }
  }

  lemma LetterSetAppend(s: string)
    requires s != []
    ensures LetterSet(s) == LetterSet(s[..|s| - 1]) + {s[|s| - 1]}
  {
    var init := s[..|s| - 1];
    assert forall i :: 0 <= i < |init| ==> init[i] == s[i];
  }

  lemma DistinctLettersInit(s: string)
    requires s != [] && DistinctLetters(s)
    ensures DistinctLetters(s[..|s| - 1]) && s[|s| - 1] !in LetterSet(s[..|s| - 1])
  {
  }

  lemma RepeatedLetter(s: string)
    requires s != [] && !DistinctLetters(s)
    ensures !DistinctLetters(s[..|s| - 1]) || s[|s| - 1] in LetterSet(s[..|s| - 1])
  {
    var init := s[..|s| - 1];
    var i, j :| 0 <= i < j < |s| && s[i] == s[j];
    if j < |s| - 1 {
      assert init[i] == init[j];
    } else {
      assert init[i] == s[|s| - 1];
    }
  }

  lemma {:induction false} SetOfSeqBound(s: string)
    ensures |LetterSet(s)| <= |s|
  {
    if s != [] {
      SetOfSeqBound(s[..|s| - 1]);
      LetterSetAppend(s);
    }
  }

  /** The position of the first dimension name without a letter. */
  function FirstUnknown(dims: seq<string>): (r: Option<nat>)
    ensures r.None? <==> AllKnownDims(dims)
    ensures r.Some? ==> r.value < |dims| && DimLetter(dims[r.value]).None? && AllKnownDims(dims[..r.value])
  {
    if dims == [] then None
    else if DimLetter(dims[0]).None? then Some(0)
    else
      match FirstUnknown(dims[1..])
      case None => None
      case Some(k) =>
        assert dims[..k + 1] == [dims[0]] + dims[1..][..k];
        Some(k + 1)
  }

  /** The physical dimensions: the first unknown name is reported, then
      repeated letters, then letters that differ from the catalogue's. */
  function PhysicalSpec(dims: seq<string>, dimensions: string): Result<string, CmemsError> {
    match FirstUnknown(dims)
    case Some(k) => Err(UnknownPhysicalDimension(dims[k]))
    case None =>
      if !DistinctLetters(Spelled(dims)) then Err(DuplicatePhysicalDimensions)
      else if LetterSet(Spelled(dims)) != LetterSet(dimensions) then Err(DimensionsMismatch)
      else Ok(Spelled(dims))
  }

  /** The loop that spells the physical dimensions from the data array's
      dimension names, then the duplicate and catalogue-agreement checks. */
  method PhysicalDimensionsOf(dims: seq<string>, dimensions: string) returns (r: Result<string, CmemsError>)
    ensures r == PhysicalSpec(dims, dimensions)
    ensures r.Ok? <==> AllKnownDims(dims) && PhysicalAgrees(dims, dimensions)
    ensures r.Ok? ==> |r.value| == |dims| && forall i :: 0 <= i < |dims| ==> Some(r.value[i]) == DimLetter(dims[i])
    ensures r.Ok? ==> DistinctLetters(r.value)
    ensures !AllKnownDims(dims) ==> r == Err(UnknownPhysicalDimension(dims[FirstUnknown(dims).value]))
    ensures AllKnownDims(dims) && !DistinctLetters(Spelled(dims)) ==> r == Err(DuplicatePhysicalDimensions)
    ensures AllKnownDims(dims) && DistinctLetters(Spelled(dims)) && LetterSet(Spelled(dims)) != LetterSet(dimensions) ==>
      r == Err(DimensionsMismatch)
  {
    var physical := "";
    for i := 0 to |dims|
      invariant AllKnownDims(dims[..i])
      invariant |physical| == i && forall k :: 0 <= k < i ==> Some(physical[k]) == DimLetter(dims[k])
    {
      var letter := DimLetter(dims[i]);
      if letter.None? {
        return Err(UnknownPhysicalDimension(dims[i]));
      }
      physical := physical + [letter.value];
    }
    assert dims[..|dims|] == dims;
    assert physical == Spelled(dims);
    DistinctLettersCard(physical);
    if |physical| != |LetterSet(physical)| {
      return Err(DuplicatePhysicalDimensions);
    }
    if LetterSet(physical) != LetterSet(dimensions) {
      return Err(DimensionsMismatch);
    }
    r := Ok(physical);
  }

  function Spelled(dims: seq<string>): (r: string)
    requires AllKnownDims(dims)
    ensures |r| == |dims| && forall i :: 0 <= i < |dims| ==> Some(r[i]) == DimLetter(dims[i])
  {
    seq(|dims|, i requires 0 <= i < |dims| => DimLetter(dims[i]).value)
  }

  /** The physical letters are distinct and are the catalogue's letters. */
  predicate PhysicalAgrees(dims: seq<string>, dimensions: string)
    requires AllKnownDims(dims)
  {
    var p := Spelled(dims);
    DistinctLetters(p) && LetterSet(p) == LetterSet(dimensions)
  }

  /** A dimension is flipped when its first two coordinates descend; depths
      are compared by absolute value. */
  predicate Descends(dim: string, values: seq<real>) {
    |values| >= 2 &&
    if dim == "depth" then Abs(values[1]) < Abs(values[0]) else values[1] < values[0]
  }

  /** The loop that appends one flip flag per dimension. */
  method FlipFlags(dims: seq<string>, coords: seq<seq<real>>) returns (flags: seq<bool>)
    requires |coords| == |dims|
    ensures |flags| == |dims| && forall i :: 0 <= i < |dims| ==> flags[i] == Descends(dims[i], coords[i])
  {
    flags := [];
    for i := 0 to |dims|
      invariant |flags| == i && forall k :: 0 <= k < i ==> flags[k] == Descends(dims[k], coords[k])
    {
      if |coords[i]| < 2 {
        flags := flags + [false];
      } else {
        var first := coords[i][0];
        var second := coords[i][1];
        if dims[i] == "depth" {
          first, second := Abs(first), Abs(second);
        }
        flags := flags + [second < first];
      }
    }
  }

  /** For a coordinate that is strictly monotone, the flag says it runs
      downwards: flipped exactly when strictly decreasing. */
  lemma FlipMeansDescending(dim: string, values: seq<real>)
    requires dim != "depth" && |values| >= 2
    requires StrictlyIncreasing(values) || StrictlyDecreasing(values)
    ensures Descends(dim, values) <==> StrictlyDecreasing(values)
  {
  }

  /** For depths, the flag tells whether the absolute depths descend, which is
      what the catalogue normalisation sorts away. */
  lemma FlipOfDepths(values: seq<real>)
    requires |values| >= 2
    requires var a := seq(|values|, i requires 0 <= i < |values| => Abs(values[i]));
      StrictlyIncreasing(a) || StrictlyDecreasing(a)
    ensures Descends("depth", values) <==>
      StrictlyDecreasing(seq(|values|, i requires 0 <= i < |values| => Abs(values[i])))
  {
    var a := seq(|values|, i requires 0 <= i < |values| => Abs(values[i]));
    assert a[0] == Abs(values[0]) && a[1] == Abs(values[1]);
  }

  const SupportedDataTypes: seq<string> := ["int8", "uint8", "int16", "uint16", "int32", "uint32", "float32", "float64"]

  /** The no-data value in the array's own type; NaN only for float types. */
  datatype NoData = NoDataNone | NoDataInt(i: int) | NoDataFloat(f: real) | NoDataNaN

  /** `float(x)` or `int(x)` of an attribute, by the array's type. */
  function CastNoData(dataType: string, v: CatValue): NoData
    requires IsNumeric(v)
  {
    if StartsWith(dataType, "float") then NoDataFloat(NumValue(v)) else NoDataInt(Trunc(NumValue(v)))
  }

  /** The loop over `missing_value` and `_FillValue`: each numeric one
      overwrites the value, then float types default to NaN. */
  method UnscaledNoData(dataType: string, attrs: Dict<string, CatValue>) returns (r: Result<NoData, CmemsError>)
    ensures dataType !in SupportedDataTypes ==> r == Err(UnsupportedDataType(dataType))
    ensures dataType in SupportedDataTypes ==> r == Ok(NoDataRule(dataType, attrs))
  {
    if dataType !in SupportedDataTypes {
      return Err(UnsupportedDataType(dataType));
    }
    var names := ["missing_value", "_FillValue"];
    var noData := NoDataNone;
    for k := 0 to |names|
      invariant k == 0 ==> noData == NoDataNone
      invariant k == 1 ==> noData == (if NumericAt(attrs, "missing_value") then CastNoData(dataType, Get(attrs, "missing_value").value) else NoDataNone)
      invariant k == 2 ==> noData == NoDataRule(dataType, attrs) || (noData == NoDataNone && !NumericAt(attrs, "missing_value") && !NumericAt(attrs, "_FillValue"))
    {
      var v := Get(attrs, names[k]);
      if v.Some? && IsNumeric(v.value) {
        noData := CastNoData(dataType, v.value);
      }
    }
    if noData.NoDataNone? && StartsWith(dataType, "float") {
      noData := NoDataNaN;
    }
    r := Ok(noData);
  }

  predicate NumericAt(attrs: Dict<string, CatValue>, name: string) {
    Get(attrs, name).Some? && IsNumeric(Get(attrs, name).value)
  }

  /** `_FillValue` wins over `missing_value` when both are numbers; float types
      without either take NaN, integer types None. */
  function NoDataRule(dataType: string, attrs: Dict<string, CatValue>): NoData {
    if NumericAt(attrs, "_FillValue") then CastNoData(dataType, Get(attrs, "_FillValue").value)
    else if NumericAt(attrs, "missing_value") then CastNoData(dataType, Get(attrs, "missing_value").value)
    else if StartsWith(dataType, "float") then NoDataNaN
    else NoDataNone
  }

  /** The no-data value has the array's kind: a float or NaN for float types,
      an integer or nothing for integer types. */
  lemma NoDataKind(dataType: string, attrs: Dict<string, CatValue>)
    requires dataType in SupportedDataTypes
    ensures StartsWith(dataType, "float") ==> NoDataRule(dataType, attrs).NoDataFloat? || NoDataRule(dataType, attrs).NoDataNaN?
    ensures !StartsWith(dataType, "float") ==> NoDataRule(dataType, attrs).NoDataInt? || NoDataRule(dataType, attrs).NoDataNone?
  {
  }

  // ---------------------------------------------------------------------------
  // Depth cell edges

  /** The midpoints of neighbouring depths. */
  function Midpoints(z: seq<real>): (r: seq<real>)
    ensures |r| == if |z| == 0 then 0 else |z| - 1
    ensures forall i :: 0 <= i < |r| ==> r[i] == (z[i] + z[i + 1]) / 2.0
  {
    if |z| < 2 then [] else [(z[0] + z[1]) / 2.0] + Midpoints(z[1..])
  }

  /** `_GetCoords` for the depth axis: the centres, or with an offset of -0.5
      or 0.5 the upper or lower cell edges (the surface at 0 and the floor at
      11000 metres closing the ends). */
  function ZCoords(coord: string, zCoords: seq<real>, offset: real): (r: Result<seq<real>, CmemsError>)
    ensures r.Err? <==> coord != "z"
    ensures r.Ok? && offset != -0.5 && offset != 0.5 ==> r.value == zCoords
    ensures r.Ok? && (offset == -0.5 || offset == 0.5) ==> |r.value| == if zCoords == [] then 1 else |zCoords|
    ensures r.Ok? && offset == -0.5 ==>
      r.value[0] == 0.0 && forall i :: 0 < i < |r.value| ==> r.value[i] == (zCoords[i - 1] + zCoords[i]) / 2.0
    ensures r.Ok? && offset == 0.5 ==>
      r.value[|r.value| - 1] == 11000.0 && forall i :: 0 <= i < |r.value| - 1 ==> r.value[i] == (zCoords[i] + zCoords[i + 1]) / 2.0
  {
    if coord != "z" then Err(NotZCoordinate(coord))
    else if offset == -0.5 then
      var m := Midpoints(zCoords);
      assert forall i :: 0 < i <= |m| ==> ([0.0] + m)[i] == m[i - 1];
      Ok([0.0] + m)
    else if offset == 0.5 then
      var m := Midpoints(zCoords);
      assert forall i :: 0 <= i < |m| ==> (m + [11000.0])[i] == m[i];
      Ok(m + [11000.0])
    else Ok(zCoords)
  }

  /** Each depth lies between its upper and lower edge, and there is one edge of
      each kind per depth. */
  lemma ZEdgesBracketCentres(z: seq<real>)
    requires |z| > 0 && StrictlyIncreasing(z) && z[0] >= 0.0 && z[|z| - 1] < 11000.0
    ensures var top := ZCoords("z", z, -0.5).value; var bottom := ZCoords("z", z, 0.5).value;
      |top| == |z| && |bottom| == |z| &&
      forall i :: 0 <= i < |z| ==> top[i] <= z[i] < bottom[i]
    ensures var top := ZCoords("z", z, -0.5).value; var bottom := ZCoords("z", z, 0.5).value;
      forall i :: 0 <= i < |z| - 1 ==> bottom[i] == top[i + 1]
  {
    var m := Midpoints(z);
    var top := [0.0] + m;
    var bottom := m + [11000.0];
    forall i | 0 <= i < |z|
      ensures top[i] <= z[i] < bottom[i]
    {
      if i > 0 {
        assert top[i] == m[i - 1] == (z[i - 1] + z[i]) / 2.0;
      }
      if i < |z| - 1 {
        assert bottom[i] == m[i] == (z[i] + z[i + 1]) / 2.0;
      }
    }
    forall i | 0 <= i < |z| - 1
      ensures bottom[i] == top[i + 1]
    {
      assert bottom[i] == m[i] && top[i + 1] == m[i];
    }
  }

  // ---------------------------------------------------------------------------
  // Lazy properties

  datatype PropertySource = NotAProperty | ScaledByLibrary | FromCatalogue | FromDataset

  const CatalogueProperties: seq<string> := ["Shape", "Dimensions", "CoordDependencies", "CoordIncrements",
    "TIncrement", "TIncrementUnit", "CornerCoords", "TCornerCoordType", "SpatialReference"]
  const DatasetProperties: seq<string> := ["PhysicalDimensions", "PhysicalDimensionsFlipped", "UnscaledDataType", "UnscaledNoDataValue"]
  const ScalingProperties: seq<string> := ["ScaledDataType", "ScaledNoDataValue", "ScalingFunction", "UnscalingFunction"]
  const LazyProperties: seq<string> := ["SpatialReference", "Shape", "Dimensions", "PhysicalDimensions",
    "PhysicalDimensionsFlipped", "CoordDependencies", "CoordIncrements", "TIncrement", "TIncrementUnit",
    "TCornerCoordType", "CornerCoords", "UnscaledDataType", "ScaledDataType", "UnscaledNoDataValue",
    "ScaledNoDataValue", "ScalingFunction", "UnscalingFunction"]

  /** Which query answers a lazy property: unknown and scaling names get None,
      the grid geometry comes from the catalogue, the rest from the dataset. */
  function SourceOf(name: string): PropertySource {
    if name !in LazyProperties then NotAProperty
    else if name in ScalingProperties then ScaledByLibrary
    else if name in CatalogueProperties then FromCatalogue
    else FromDataset
  }

  /** The three groups split the known names between them. */
  lemma SourcePartition(name: string)
    ensures SourceOf(name) == FromCatalogue <==> name in CatalogueProperties
    ensures SourceOf(name) == FromDataset <==> name in DatasetProperties
    ensures SourceOf(name) == ScaledByLibrary <==> name in ScalingProperties
  {
    CatalogueSource(name);
    DatasetSource(name);
  }

  lemma CatalogueSource(name: string)
    ensures SourceOf(name) == FromCatalogue <==> name in CatalogueProperties
  {
  }

  lemma DatasetSource(name: string)
    ensures SourceOf(name) == FromDataset <==> name in DatasetProperties
  {
  }

  // ---------------------------------------------------------------------------
  // The grid object

  /** The lazy property values taken from the catalogue. */
  datatype CatalogueValues = CatalogueValues(dimensions: string, zCount: Option<nat>, time: Option<TimeAxis>, tCornerCoordType: string)

  /** The lazy property values taken from the opened dataset. */
  datatype DatasetValues = DatasetValues(physicalDimensions: string, flipped: seq<bool>, dataType: string, noData: NoData)

  /** What `copernicusmarine.describe` does (raises, or returns `cat`), with
      the outcome of the two datetime steps the model leaves to its caller. */
  datatype CatalogueQuery = CatalogueQuery(describeRaises: bool, cat: CatValue, sinceParses: bool, inferred: Result<InferredStep, CmemsError>)

  /** The data array of the opened dataset: its dimension names, the values of
      each dimension's coordinate, its dtype and its attributes. */
  datatype DatasetView = DatasetView(dims: seq<string>, coords: seq<seq<real>>, dataType: string, attrs: Dict<string, CatValue>)

  /** What `_Open` and the subscript `self._Dataset[self._VariableShortName]`
      do: opening raises, the subscript raises, or both succeed and give the
      data array. */
  datatype DatasetAccess = OpenRaises | LookupRaises | Opened(view: DatasetView)

  /** A data array has one coordinate list per dimension. */
  predicate WellFormedAccess(ds: DatasetAccess) {
    ds.Opened? ==> |ds.view.coords| == |ds.view.dims|
  }

  predicate CatalogueFacts(c: CatalogueValues, zCoords: Option<seq<real>>, tType: string) {
    c.dimensions in SupportedDimensions &&
    ('z' in c.dimensions <==> zCoords.Some?) && ('t' in c.dimensions <==> c.time.Some?) &&
    (zCoords.Some? ==> c.zCount == Some(|zCoords.value|) && StrictlyIncreasing(zCoords.value)) &&
    (zCoords.None? ==> c.zCount.None?) &&
    c.tCornerCoordType == tType
  }

  /** What one successful catalogue query yields. */
  datatype CatalogueResult = CatalogueResult(uri: string, standardName: string, zCoords: Option<seq<real>>, values: CatalogueValues)

  /** The URI, standard name and dimensions come from the selected records. */
  predicate ReadFrom(c: CatalogueResult, selected: Candidate) {
    var (service, variable) := selected;
    Field(service, "uri") == Some(CStr(c.uri)) && Field(variable, "standard_name") == Some(CStr(c.standardName)) &&
    CoordinatesSpec(Items(Field(variable, "coordinates"))).Ok? &&
    c.values.dimensions == DimensionsOf(CoordinatesSpec(Items(Field(variable, "coordinates"))).value)
  }

  /** The depth axis read from the `depth` coordinate record. */
  function DepthAxisSpec(depth: CatValue): Result<seq<real>, CmemsError> {
    if !IsNonEmptyList(Field(depth, "values")) then Err(NoDepthValues) else DepthsSpec(Field(depth, "values").value.items)
  }

  /** The depth axis when z is a dimension, then the time axis when t is one;
      the first that fails stops the query. */
  function AxesSpec(coordinates: Dict<string, CatValue>, dims: string, q: CatalogueQuery)
    : Result<(Option<seq<real>>, Option<TimeAxis>), CmemsError>
    requires dims == DimensionsOf(coordinates)
  {
    DimensionsOrdered(coordinates);
    if 'z' in dims && DepthAxisSpec(Get(coordinates, "depth").value).Err? then
      Err(DepthAxisSpec(Get(coordinates, "depth").value).error)
    else if 't' in dims && TimeAxisSpec(Get(coordinates, "time").value, q.sinceParses, q.inferred).Err? then
      Err(TimeAxisSpec(Get(coordinates, "time").value, q.sinceParses, q.inferred).error)
    else
      Ok((if 'z' in dims then Some(DepthAxisSpec(Get(coordinates, "depth").value).value) else None,
          if 't' in dims then Some(TimeAxisSpec(Get(coordinates, "time").value, q.sinceParses, q.inferred).value) else None))
  }

  /** The catalogue query in the order its checks run: the `describe` call,
      the service search, the coordinate records, the dimensions, the
      longitude and latitude attributes, then the depth and time axes. */
  function CatalogueSpec(q: CatalogueQuery, id: string, name: string, tType: string): Result<CatalogueResult, CmemsError> {
    if q.describeRaises then Err(DescribeFailed) else
    match Selected(q.cat, id, name)
    case Err(e) => Err(e)
    case Ok(sel) =>
      var (service, variable) := sel;
      match CoordinatesSpec(Items(Field(variable, "coordinates")))
      case Err(e) => Err(e)
      case Ok(coordinates) =>
        match CheckDimensions(coordinates)
        case Err(e) => Err(e)
        case Ok(dims) =>
          if LonLatError(coordinates).Some? then Err(LonLatError(coordinates).value)
          else
            match AxesSpec(coordinates, dims, q)
            case Err(e) => Err(e)
            case Ok(axes) =>
              var (z, time) := axes;
              Ok(CatalogueResult(Field(service, "uri").value.s, Field(variable, "standard_name").value.s, z,
                CatalogueValues(dims, if z.Some? then Some(|z.value|) else None, time, tType)))
  }

  /** The axes are read exactly when the depth record, if any, yields a depth
      axis and the time record, if any, yields a time axis; the depth error
      comes first. */
  lemma AxesSucceeds(coordinates: Dict<string, CatValue>, dims: string, q: CatalogueQuery)
    requires dims == DimensionsOf(coordinates)
    ensures AxesSpec(coordinates, dims, q).Ok? <==>
      ("depth" in Keys(coordinates) ==> DepthAxisSpec(Get(coordinates, "depth").value).Ok?) &&
      ("time" in Keys(coordinates) ==> TimeAxisSpec(Get(coordinates, "time").value, q.sinceParses, q.inferred).Ok?)
    ensures "depth" in Keys(coordinates) && DepthAxisSpec(Get(coordinates, "depth").value).Err? ==>
      AxesSpec(coordinates, dims, q) == Err(DepthAxisSpec(Get(coordinates, "depth").value).error)
  {
    DimensionsOrdered(coordinates);
  }

  /** A successful query stores the depth axis read from the selected
      variable's `depth` record and the time axis read from its `time`
      record, each present exactly when that record is. */
  lemma CatalogueAxes(q: CatalogueQuery, id: string, name: string, tType: string)
    ensures var r := CatalogueSpec(q, id, name, tType);
      r.Ok? ==>
        !q.describeRaises && Selected(q.cat, id, name).Ok? &&
        var c := CoordinatesSpec(Items(Field(Selected(q.cat, id, name).value.1, "coordinates")));
        c.Ok? &&
        ("depth" in Keys(c.value) <==> r.value.zCoords.Some?) &&
        (r.value.zCoords.Some? ==> DepthAxisSpec(Get(c.value, "depth").value) == Ok(r.value.zCoords.value)) &&
        ("time" in Keys(c.value) <==> r.value.values.time.Some?) &&
        (r.value.values.time.Some? ==>
          TimeAxisSpec(Get(c.value, "time").value, q.sinceParses, q.inferred) == Ok(r.value.values.time.value))
  {
    var r := CatalogueSpec(q, id, name, tType);
    if r.Ok? {
      var c := CoordinatesSpec(Items(Field(Selected(q.cat, id, name).value.1, "coordinates"))).value;
      DimensionsOrdered(c);
    }
  }

  /** The checks and derivations of the catalogue query, in the order they run. */
  method ReadCatalogue(q: CatalogueQuery, id: string, name: string, tType: string) returns (r: Result<CatalogueResult, CmemsError>)
    ensures r == CatalogueSpec(q, id, name, tType)
    ensures r.Ok? ==> |r.value.uri| > 0 && |r.value.standardName| > 0 && CatalogueFacts(r.value.values, r.value.zCoords, tType)
    ensures r.Ok? ==> !q.describeRaises && Selected(q.cat, id, name).Ok? && ReadFrom(r.value, Selected(q.cat, id, name).value)
    ensures q.describeRaises ==> r == Err(DescribeFailed)
  {
    if q.describeRaises {
      return Err(DescribeFailed);
    }
    var sel := SelectService(q.cat, id, name);
    if sel.Err? {
      return Err(sel.error);
    }
    var (service, variable) := sel.value;
    var coords := CollectCoordinates(Items(Field(variable, "coordinates")));
    if coords.Err? {
      return Err(coords.error);
    }
    var coordinates := coords.value;
    var dims := CheckDimensions(coordinates);
    if dims.Err? {
      return Err(dims.error);
    }
    var lonLat, _ := CheckLonLatAttributes(coordinates);
    if lonLat.Some? {
      return Err(lonLat.value);
    }
    var axes := ReadAxes(coordinates, dims.value, q);
    if axes.Err? {
      return Err(axes.error);
    }
    var (z, time) := axes.value;
    var values := CatalogueValues(dims.value, if z.Some? then Some(|z.value|) else None, time, tType);
    r := Ok(CatalogueResult(Field(service, "uri").value.s, Field(variable, "standard_name").value.s, z, values));
  }

  /** The depth and time axes, for the dimensions the catalogue lists. */
  method ReadAxes(coordinates: Dict<string, CatValue>, dims: string, q: CatalogueQuery)
    returns (r: Result<(Option<seq<real>>, Option<TimeAxis>), CmemsError>)
    requires dims == DimensionsOf(coordinates)
    ensures r == AxesSpec(coordinates, dims, q)
    ensures r.Ok? ==> ('z' in dims <==> r.value.0.Some?) && ('t' in dims <==> r.value.1.Some?)
    ensures r.Ok? && r.value.0.Some? ==> StrictlyIncreasing(r.value.0.value)
  {
    DimensionsOrdered(coordinates);
    var z: Option<seq<real>> := None;
    if 'z' in dims {
      var depth := Get(coordinates, "depth").value;
      if !IsNonEmptyList(Field(depth, "values")) {
        return Err(NoDepthValues);
      }
      var normalised := NormaliseDepths(Field(depth, "values").value.items);
      if normalised.Err? {
        return Err(normalised.error);
      }
      z := Some(normalised.value);
    }
    var time: Option<TimeAxis> := None;
    if 't' in dims {
      var axis := TimeAxisOf(Get(coordinates, "time").value, q.sinceParses, q.inferred);
      if axis.Err? {
        return Err(axis.error);
      }
      time := Some(axis.value);
    }
    r := Ok((z, time));
  }

  /** One flip flag per dimension, set when its coordinates descend. */
  function FlipSpec(dims: seq<string>, coords: seq<seq<real>>): (r: seq<bool>)
    requires |coords| == |dims|
  {
    seq(|dims|, i requires 0 <= i < |dims| => Descends(dims[i], coords[i]))
  }

  /** The dataset-side values in the order they are read: the physical
      dimensions and their checks, the flip flags, then the data type check
      and the no-data value. */
  function DatasetSpec(ds: DatasetView, dimensions: string): Result<DatasetValues, CmemsError>
    requires |ds.coords| == |ds.dims|
  {
    match PhysicalSpec(ds.dims, dimensions)
    case Err(e) => Err(e)
    case Ok(physical) =>
      if ds.dataType !in SupportedDataTypes then Err(UnsupportedDataType(ds.dataType))
      else Ok(DatasetValues(physical, FlipSpec(ds.dims, ds.coords), ds.dataType, NoDataRule(ds.dataType, ds.attrs)))
  }

  /** The dataset is read exactly when every dimension is known, the letters
      are distinct and agree with the catalogue's, and the data type is
      supported; what is read then meets `DatasetFacts`. */
  lemma DatasetSpecFacts(ds: DatasetView, dimensions: string)
    requires |ds.coords| == |ds.dims|
    ensures DatasetSpec(ds, dimensions).Ok? <==>
      AllKnownDims(ds.dims) && PhysicalAgrees(ds.dims, dimensions) && ds.dataType in SupportedDataTypes
    ensures DatasetSpec(ds, dimensions).Ok? ==> DatasetFacts(ds, dimensions, Some(DatasetSpec(ds, dimensions).value))
  {
  }

  class CMEMSARCOArray {
    const datasetID: string
    const variableShortName: string
    /** The corner coordinate types in t, z, y, x order. */
    const cornerCoordTypes: seq<string>
    var uri: Option<string>
    var zCoords: Option<seq<real>>
    var variableStandardName: Option<string>
    var catalogue: Option<CatalogueValues>
    var dataset: Option<DatasetValues>

    /** The catalogue values, the URI and the standard name are set together. */
    ghost predicate Valid()
      reads this
    {
      |cornerCoordTypes| == 4 &&
      (uri.Some? <==> catalogue.Some?) && (uri.Some? <==> variableStandardName.Some?) &&
      (catalogue.Some? ==> CatalogueFacts(catalogue.value, zCoords, cornerCoordTypes[0])) &&
      (uri.Some? ==> |uri.value| > 0 && |variableStandardName.value| > 0) &&
      (catalogue.None? ==> zCoords.None? && dataset.None?)
    }

    constructor(datasetID: string, variableShortName: string, xCoordType: string, yCoordType: string, zCoordType: string, tCoordType: string)
      ensures Valid()
      ensures this.datasetID == datasetID && this.variableShortName == variableShortName
      ensures cornerCoordTypes == [tCoordType, zCoordType, yCoordType, xCoordType]
      ensures uri.None? && catalogue.None? && dataset.None?
    {
      this.datasetID := datasetID;
      this.variableShortName := variableShortName;
      cornerCoordTypes := [tCoordType, zCoordType, yCoordType, xCoordType];
      uri := None;
      zCoords := None;
      variableStandardName := None;
      catalogue := None;
      dataset := None;
    }

    /** What this array's catalogue query yields. */
    function CatalogueOf(q: CatalogueQuery): Result<CatalogueResult, CmemsError>
      requires |cornerCoordTypes| == 4
    {
      CatalogueSpec(q, datasetID, variableShortName, cornerCoordTypes[0])
    }

    /** The catalogue query, run once: on success the URI, standard name,
        depths and catalogue lazy values are set together; on any error
        nothing is. */
    method QueryCatalogue(q: CatalogueQuery) returns (e: Option<CmemsError>)
      requires Valid()
      modifies this
      ensures Valid()
      ensures old(uri).Some? ==> e.None? && unchanged(this)
      ensures old(uri).None? && CatalogueOf(q).Err? ==> e == Some(CatalogueOf(q).error) && unchanged(this)
      ensures old(uri).None? && CatalogueOf(q).Ok? ==>
        e.None? && uri.Some? && variableStandardName.Some? && catalogue.Some? &&
        CatalogueResult(uri.value, variableStandardName.value, zCoords, catalogue.value) == CatalogueOf(q).value
      ensures old(uri).Some? || e.Some? ==> unchanged(this)
      ensures e.None? ==> uri.Some? && variableStandardName.Some? && catalogue.Some?
      ensures old(uri).None? && q.describeRaises ==> e == Some(DescribeFailed) && unchanged(this)
      ensures old(uri).None? && e.None? ==> (!q.describeRaises && Selected(q.cat, datasetID, variableShortName).Ok? &&
        ReadFrom(CatalogueResult(uri.value, variableStandardName.value, zCoords, catalogue.value), Selected(q.cat, datasetID, variableShortName).value))
      ensures dataset == old(dataset)
    {
      if uri.Some? {
        return None;
      }
      var read := ReadCatalogue(q, datasetID, variableShortName, cornerCoordTypes[0]);
      assert read == CatalogueOf(q);
      if read.Err? {
        return Some(read.error);
      }
      StoreCatalogue(read.value);
      e := None;
    }

    /** The assignments of a successful catalogue query. */
    method StoreCatalogue(res: CatalogueResult)
      requires Valid() && uri.None?
      requires |res.uri| > 0 && |res.standardName| > 0 && CatalogueFacts(res.values, res.zCoords, cornerCoordTypes[0])
      modifies this
      ensures Valid()
      ensures uri.Some? && variableStandardName.Some? && catalogue.Some?
      ensures CatalogueResult(uri.value, variableStandardName.value, zCoords, catalogue.value) == res
      ensures dataset == old(dataset)
    {
      catalogue, zCoords, variableStandardName, uri := Some(res.values), res.zCoords, Some(res.standardName), Some(res.uri);
    }

    /** The dataset-side lazy values: the dataset is opened and the variable
        taken from it, then the physical dimensions, flip flags, data type
        and no-data value are set together or not at all. */
    method ReadDataset(ds: DatasetAccess) returns (e: Option<CmemsError>)
      requires Valid() && catalogue.Some? && WellFormedAccess(ds)
      modifies this
      ensures Valid()
      ensures uri == old(uri) && zCoords == old(zCoords) && catalogue == old(catalogue) && variableStandardName == old(variableStandardName)
      ensures e.Some? ==> unchanged(this)
      ensures ds.OpenRaises? ==> e == Some(OpenFailed)
      ensures ds.LookupRaises? ==> e == Some(VariableLookupFailed)
      ensures e.None? <==> ds.Opened? && DatasetSpec(ds.view, catalogue.value.dimensions).Ok?
      ensures ds.Opened? && e.Some? ==> e.value == DatasetSpec(ds.view, catalogue.value.dimensions).error
      ensures e.None? ==> dataset == Some(DatasetSpec(ds.view, catalogue.value.dimensions).value)
      ensures e.None? ==> DatasetFacts(ds.view, catalogue.value.dimensions, dataset)
    {
      if ds.OpenRaises? {
        return Some(OpenFailed);
      }
      if ds.LookupRaises? {
        return Some(VariableLookupFailed);
      }
      var da := ds.view;
      var physical := PhysicalDimensionsOf(da.dims, catalogue.value.dimensions);
      if physical.Err? {
        return Some(physical.error);
      }
      var flipped := FlipFlags(da.dims, da.coords);
      var noData := UnscaledNoData(da.dataType, da.attrs);
      if noData.Err? {
        return Some(noData.error);
      }
      DatasetSpecFacts(da, catalogue.value.dimensions);
      assert flipped == FlipSpec(da.dims, da.coords);
      dataset := Some(DatasetValues(physical.value, flipped, da.dataType, noData.value));
      e := None;
    }

    /** `_GetLazyPropertyPhysicalValue`: unknown and scaling properties give
        nothing; otherwise the catalogue is queried if it has not been, and
        properties of the data array also read the dataset. */
    method GetLazyPropertyPhysicalValue(name: string, q: CatalogueQuery, ds: DatasetAccess) returns (r: Result<PropertySource, CmemsError>)
      requires Valid() && WellFormedAccess(ds)
      modifies this
      ensures Valid()
      ensures SourceOf(name) in {NotAProperty, ScaledByLibrary} ==> r == Ok(SourceOf(name)) && unchanged(this)
      ensures r.Ok? ==> r.value == SourceOf(name)
      ensures r.Ok? && r.value in {FromCatalogue, FromDataset} ==> catalogue.Some? && uri.Some?
      ensures r.Ok? && r.value == FromDataset ==> ds.Opened? && DatasetFacts(ds.view, catalogue.value.dimensions, dataset)
      ensures SourceOf(name) in {FromCatalogue, FromDataset} && old(uri).None? && CatalogueOf(q).Err? ==>
        r == Err(CatalogueOf(q).error) && unchanged(this)
      ensures SourceOf(name) == FromCatalogue && (old(uri).Some? || CatalogueOf(q).Ok?) ==> r == Ok(FromCatalogue)
      ensures SourceOf(name) == FromDataset && (old(uri).Some? || CatalogueOf(q).Ok?) ==>
        catalogue.Some? &&
        (ds.OpenRaises? ==> r == Err(OpenFailed)) && (ds.LookupRaises? ==> r == Err(VariableLookupFailed)) &&
        (r.Ok? <==> ds.Opened? && DatasetSpec(ds.view, catalogue.value.dimensions).Ok?) &&
        (ds.Opened? && r.Err? ==> r.error == DatasetSpec(ds.view, catalogue.value.dimensions).error)
    {
      var source := SourceOf(name);
      if source == NotAProperty || source == ScaledByLibrary {
        return Ok(source);
      }
      var e := QueryCatalogue(q);
      if e.Some? {
        return Err(e.value);
      }
      if source == FromCatalogue {
        return Ok(source);
      }
      e := ReadDataset(ds);
      if e.Some? {
        return Err(e.value);
      }
      r := Ok(source);
    }
  }

  /** What the dataset-side values are, given the view and the catalogue's
      dimensions. */
  predicate DatasetFacts(ds: DatasetView, dimensions: string, dataset: Option<DatasetValues>)
    requires |ds.coords| == |ds.dims|
  {
    dataset.Some? && AllKnownDims(ds.dims) && PhysicalAgrees(ds.dims, dimensions) &&
    dataset.value.physicalDimensions == Spelled(ds.dims) &&
    |dataset.value.flipped| == |ds.dims| &&
    (forall i :: 0 <= i < |ds.dims| ==> dataset.value.flipped[i] == Descends(ds.dims[i], ds.coords[i])) &&
    dataset.value.dataType == ds.dataType && ds.dataType in SupportedDataTypes &&
    dataset.value.noData == NoDataRule(ds.dataType, ds.attrs)
  }
}
