/** Strategy parameters across creation and upgrades: validation, the diff of two
    describes, the merge, and what is stored under any interleaving. */
module StrategyUpgrade {
  import opened Prelude

  datatype Value = Null | Json(text: string)

  type Params = map<string, Value>

  /** default == Null stands for a parameter declared without a default. */
  datatype Parameter = Parameter(name: string, kind: string, default: Value)

  datatype Preset = Preset(name: string, parameters: Params)

  datatype Describe = Describe(parameters: seq<Parameter>, presets: seq<Preset>, benchmark: string)

  function Names(d: Describe): set<string> {
    set p | p in d.parameters :: p.name
  }

  /** Declarations by name; of several with one name the last counts. */
  function ByName(ps: seq<Parameter>): (m: map<string, Parameter>)
    ensures m.Keys == set p | p in ps :: p.name
    ensures forall k :: k in m ==> m[k].name == k && m[k] in ps
  {
    if ps == [] then map[]
    else
      var n := |ps| - 1;
      assert ps == ps[..n] + [ps[n]];
      ByName(ps[..n])[ps[n].name := ps[n]]
  }

  // -------------------------------------------------------------- validation

  datatype ParamError = UnknownParameter(name: string) | MissingParameter(name: string)

  /** Stored parameters are valid when exactly the declared names are present. */
  predicate Valid(params: Params, d: Describe) {
    params.Keys == Names(d)
  }

  method ValidateParameters(params: Params, d: Describe) returns (err: Option<ParamError>)
    ensures err.None? <==> Valid(params, d)
    ensures err.Some? && err.value.UnknownParameter? ==>
              err.value.name in params && err.value.name !in Names(d)
    ensures err.Some? && err.value.MissingParameter? ==>
              err.value.name in Names(d) && err.value.name !in params && params.Keys <= Names(d)
  {
    var declared := {};
    for i := 0 to |d.parameters|
      invariant declared == set p | p in d.parameters[..i] :: p.name
    {
      assert d.parameters[..i + 1] == d.parameters[..i] + [d.parameters[i]];
      declared := declared + {d.parameters[i].name};
    }
    assert d.parameters[..|d.parameters|] == d.parameters;
    var todo := params.Keys;
    while todo != {}
      invariant todo <= params.Keys && params.Keys - todo <= declared
      decreases |todo|
    {
      var k :| k in todo;
      if k !in declared {
        return Some(UnknownParameter(k));
      }
      todo := todo - {k};
    }
    for i := 0 to |d.parameters|
      invariant forall j :: 0 <= j < i ==> d.parameters[j].name in params
    {
      if d.parameters[i].name !in params {
        assert d.parameters[i] in d.parameters;
        return Some(MissingParameter(d.parameters[i].name));
      }
    }
    forall k | k in Names(d)
      ensures k in params
    {
      var p :| p in d.parameters && p.name == k;
    }
    return None;
  }

  datatype CreateRequest = CreateRequest(
    strategyVer: string, parameters: Params, benchmark: string,
    startDate: Option<int>, endDate: Option<int>, runRetention: Option<int>)

  datatype DescribeJson = Absent | Malformed | Parsed(d: Describe)

  datatype Strategy = Strategy(installedVer: Option<string>, describe: DescribeJson)

  datatype CreateFailure =
    InvalidRetention | NotReady | VersionMismatch | InvalidDescribe | BadParameters | EndBeforeStart

  predicate DatesOrdered(start: Option<int>, end: Option<int>) {
    start.Some? && end.Some? ==> start.value <= end.value
  }

  function ValidateCreate(req: CreateRequest, s: Strategy): Result<CreateRequest, CreateFailure> {
    if req.runRetention.Some? && req.runRetention.value < 1 then Err(InvalidRetention)
    else if s.installedVer.None? || s.describe.Absent? then Err(NotReady)
    else if req.strategyVer != "" && req.strategyVer != s.installedVer.value then Err(VersionMismatch)
    else if s.describe.Malformed? then Err(InvalidDescribe)
    else if !Valid(req.parameters, s.describe.d) then Err(BadParameters)
    else if !DatesOrdered(req.startDate, req.endDate) then Err(EndBeforeStart)
    else
      Ok(req.(strategyVer := s.installedVer.value,
              benchmark := if req.benchmark == "" then s.describe.d.benchmark else req.benchmark))
  }

  /** What a create request must meet, and what it becomes: the installed version,
      and the strategy's benchmark if it names none. */
  lemma CreateAcceptedIff(req: CreateRequest, s: Strategy)
    ensures ValidateCreate(req, s).Ok? <==>
              && (req.runRetention.Some? ==> req.runRetention.value >= 1)
              && s.installedVer.Some? && s.describe.Parsed?
              && (req.strategyVer == "" || req.strategyVer == s.installedVer.value)
              && (forall k :: k in req.parameters <==> exists p :: p in s.describe.d.parameters && p.name == k)
              && (req.startDate.None? || req.endDate.None? || req.startDate.value <= req.endDate.value)
    ensures ValidateCreate(req, s).Ok? ==>
              var r := ValidateCreate(req, s).value;
              && s.installedVer == Some(r.strategyVer) && r.parameters == req.parameters
              && r.startDate == req.startDate && r.endDate == req.endDate && r.runRetention == req.runRetention
              && (req.benchmark != "" ==> r.benchmark == req.benchmark)
              && (req.benchmark == "" ==> r.benchmark == s.describe.d.benchmark)
    ensures ValidateCreate(req, s) == Err(BadParameters) ==>
              s.describe.Parsed? && !(forall k :: k in req.parameters <==>
                                        exists p :: p in s.describe.d.parameters && p.name == k)
  {
  }

  // -------------------------------------------------------------------- diff

  datatype Retype = Retype(name: string, from: string, to: string)

  datatype ParameterDiff = ParameterDiff(
    kept: seq<string>, addedWithDefault: seq<string>, addedWithoutDefault: seq<string>,
    removed: seq<string>, retyped: seq<Retype>)

  predicate Compatible(d: ParameterDiff) {
    d.removed == [] && d.retyped == [] && d.addedWithoutDefault == []
  }

  predicate IsKept(o: map<string, Parameter>, n: map<string, Parameter>, k: string) {
    k in o && k in n && o[k].kind == n[k].kind
  }

  predicate IsRetyped(o: map<string, Parameter>, n: map<string, Parameter>, x: Retype) {
    x.name in o && x.name in n && o[x.name].kind != n[x.name].kind && x.from == o[x.name].kind && x.to == n[x.name].kind
  }

  predicate IsRemoved(o: map<string, Parameter>, n: map<string, Parameter>, k: string) {
    k in o && k !in n
  }

  predicate IsAdded(o: map<string, Parameter>, n: map<string, Parameter>, k: string, defaulted: bool) {
    k !in o && k in n && (n[k].default != Null <==> defaulted)
  }

  /** d classifies every name of either describe, each exactly once. */
  ghost predicate IsDiff(o: map<string, Parameter>, n: map<string, Parameter>, d: ParameterDiff) {
    && Distinct(d.kept) && Distinct(d.addedWithDefault) && Distinct(d.addedWithoutDefault)
    && Distinct(d.removed) && Distinct(d.retyped)
    && (forall k :: k in d.kept <==> IsKept(o, n, k))
    && (forall x :: x in d.retyped <==> IsRetyped(o, n, x))
    && (forall k :: k in d.removed <==> IsRemoved(o, n, k))
    && (forall k :: k in d.addedWithDefault <==> IsAdded(o, n, k, true))
    && (forall k :: k in d.addedWithoutDefault <==> IsAdded(o, n, k, false))
  }

  /** The first loop, over the old names, in any order. */
  method DiffOld(o: map<string, Parameter>, n: map<string, Parameter>)
    returns (kept: seq<string>, removed: seq<string>, retyped: seq<Retype>)
    ensures Distinct(kept) && Distinct(removed) && Distinct(retyped)
    ensures forall k :: k in kept <==> IsKept(o, n, k)
    ensures forall k :: k in removed <==> IsRemoved(o, n, k)
    ensures forall x :: x in retyped <==> IsRetyped(o, n, x)
  {
    kept, removed, retyped := [], [], [];
    var todo := o.Keys;
    while todo != {}
      invariant todo <= o.Keys && Distinct(kept) && Distinct(removed) && Distinct(retyped)
      invariant forall k :: k in kept <==> IsKept(o, n, k) && k !in todo
      invariant forall k :: k in removed <==> IsRemoved(o, n, k) && k !in todo
      invariant forall x :: x in retyped <==> IsRetyped(o, n, x) && x.name !in todo
      decreases |todo|
    {
      var name :| name in todo;
      todo := todo - {name};
      if name !in n {
        removed := removed + [name];
      } else if o[name].kind != n[name].kind {
        retyped := retyped + [Retype(name, o[name].kind, n[name].kind)];
      } else {
        kept := kept + [name];
      }
    }
  }

  /** The second loop, over the new names, in any order. */
  method DiffNew(o: map<string, Parameter>, n: map<string, Parameter>)
    returns (withDefault: seq<string>, withoutDefault: seq<string>)
    ensures Distinct(withDefault) && Distinct(withoutDefault)
    ensures forall k :: k in withDefault <==> IsAdded(o, n, k, true)
    ensures forall k :: k in withoutDefault <==> IsAdded(o, n, k, false)
  {
    withDefault, withoutDefault := [], [];
    var todo := n.Keys;
    while todo != {}
      invariant todo <= n.Keys && Distinct(withDefault) && Distinct(withoutDefault)
      invariant forall k :: k in withDefault <==> IsAdded(o, n, k, true) && k !in todo
      invariant forall k :: k in withoutDefault <==> IsAdded(o, n, k, false) && k !in todo
      decreases |todo|
    {
      var name :| name in todo;
      todo := todo - {name};
      if name !in o {
        if n[name].default != Null {
          withDefault := withDefault + [name];
        } else {
          withoutDefault := withoutDefault + [name];
        }
      }
    }
  }

  method DiffParameters(oldD: Describe, newD: Describe) returns (d: ParameterDiff)
    ensures IsDiff(ByName(oldD.parameters), ByName(newD.parameters), d)
    ensures forall k :: Classified(oldD.parameters, newD.parameters, d, k)
  {
    var o, n := ByName(oldD.parameters), ByName(newD.parameters);
    var kept, removed, retyped := DiffOld(o, n);
    var withDefault, withoutDefault := DiffNew(o, n);
    d := ParameterDiff(kept, withDefault, withoutDefault, removed, retyped);
    forall k
      ensures Classified(oldD.parameters, newD.parameters, d, k)
    {
      DiffClassifies(oldD, newD, d, k);
    }
  }

  /** Where the diff puts a name, in terms of its last declaration on either side. */
  ghost predicate Classified(before: seq<Parameter>, after: seq<Parameter>, d: ParameterDiff, k: string) {
    && (forall p, q :: LastDeclared(before, k, p) && LastDeclared(after, k, q) ==>
          && (k in d.kept <==> p.kind == q.kind)
          && (forall x: Retype :: x.name == k ==>
                (x in d.retyped <==> p.kind != q.kind && x.from == p.kind && x.to == q.kind))
          && k !in d.removed && k !in d.addedWithDefault && k !in d.addedWithoutDefault)
    && (Undeclared(before, k) || Undeclared(after, k) ==> k !in d.kept && forall x :: x in d.retyped ==> x.name != k)
    && (Undeclared(after, k) ==>
          && (k in d.removed <==> !Undeclared(before, k))
          && k !in d.addedWithDefault && k !in d.addedWithoutDefault)
    && (forall q :: Undeclared(before, k) && LastDeclared(after, k, q) ==>
          && (k in d.addedWithDefault <==> q.default != Null)
          && (k in d.addedWithoutDefault <==> q.default == Null)
          && k !in d.removed)
  }

  lemma DiffClassifies(oldD: Describe, newD: Describe, d: ParameterDiff, k: string)
    requires IsDiff(ByName(oldD.parameters), ByName(newD.parameters), d)
    ensures Classified(oldD.parameters, newD.parameters, d, k)
  {
    ByNameMeans(oldD.parameters, k);
    ByNameMeans(newD.parameters, k);
  }

  // ------------------------------------------------------------------- merge

  /** The first declaration of a name; the merge takes its default. */
  function FirstNamed(ps: seq<Parameter>, name: string): Option<Parameter> {
    if ps == [] then None else if ps[0].name == name then Some(ps[0]) else FirstNamed(ps[1..], name)
  }

  lemma {:induction false} FirstNamedExists(ps: seq<Parameter>, name: string)
    ensures FirstNamed(ps, name).Some? <==> exists p :: p in ps && p.name == name
  {
    if ps != [] {
      assert ps == [ps[0]] + ps[1..];
      if ps[0].name != name {
        FirstNamedExists(ps[1..], name);
      }
    }
  }

  /** p is the declaration of k that counts in a map by name: the last. */
  ghost predicate LastDeclared(ps: seq<Parameter>, k: string, p: Parameter) {
    exists i :: 0 <= i < |ps| && ps[i] == p && p.name == k && forall j :: i < j < |ps| ==> ps[j].name != k
  }

  ghost predicate FirstDeclared(ps: seq<Parameter>, k: string, p: Parameter) {
    exists i :: 0 <= i < |ps| && ps[i] == p && p.name == k && forall j :: 0 <= j < i ==> ps[j].name != k
  }

  /** A name without declaration in ps. */
  ghost predicate Undeclared(ps: seq<Parameter>, k: string) {
    forall i :: 0 <= i < |ps| ==> ps[i].name != k
  }

  lemma {:induction false} ByNameIsLast(ps: seq<Parameter>, k: string)
    ensures k in ByName(ps) ==> LastDeclared(ps, k, ByName(ps)[k])
    ensures k !in ByName(ps) ==> Undeclared(ps, k)
  {
    if ps != [] {
      var n := |ps| - 1;
      ByNameIsLast(ps[..n], k);
      if ps[n].name == k {
        assert ps[n] == ByName(ps)[k];
      } else if k in ByName(ps) {
        LastStays(ps[..n], ps[n], k, ByName(ps)[k]);
        assert ps == ps[..n] + [ps[n]];
      } else {
        assert forall i :: 0 <= i < n ==> ps[..n][i] == ps[i];
      }
    }
  }

  lemma LastStays(ps: seq<Parameter>, q: Parameter, k: string, p: Parameter)
    requires LastDeclared(ps, k, p) && q.name != k
    ensures LastDeclared(ps + [q], k, p)
  {
    var i :| 0 <= i < |ps| && ps[i] == p && p.name == k && forall j :: i < j < |ps| ==> ps[j].name != k;
    assert (ps + [q])[i] == p;
  }

  lemma {:induction false} FirstNamedIsFirst(ps: seq<Parameter>, k: string)
    ensures FirstNamed(ps, k).Some? ==> FirstDeclared(ps, k, FirstNamed(ps, k).value)
    ensures FirstNamed(ps, k).None? ==> forall i :: 0 <= i < |ps| ==> ps[i].name != k
  {
    if ps != [] && ps[0].name != k {
      FirstNamedIsFirst(ps[1..], k);
      if FirstNamed(ps, k).Some? {
        var i :| 0 <= i < |ps[1..]| && ps[1..][i] == FirstNamed(ps, k).value
                 && forall j :: 0 <= j < i ==> ps[1..][j].name != k;
        assert ps[i + 1] == FirstNamed(ps, k).value;
        assert forall j :: 0 < j < i + 1 ==> ps[j] == ps[1..][j - 1];
      } else {
        assert forall i :: 0 < i < |ps| ==> ps[i] == ps[1..][i - 1];
      }
    }
  }

  function Lookup(m: Params, k: string): Value {
    if k in m then m[k] else Null
  }

  /** The parameters after an automatic upgrade. */
  function Merged(current: Params, oldD: Describe, newD: Describe): Params {
    var o, n := ByName(oldD.parameters), ByName(newD.parameters);
    map k | k in n && (IsKept(o, n, k) || IsAdded(o, n, k, true)) ::
      if k in o then Lookup(current, k)
      else
        var p := FirstNamed(newD.parameters, k);
        if p.Some? then p.value.default else Null
  }

  /** What the merge holds, in terms of the declarations: the names that both
      describes declare with one type, each with its current value, and the new
      names whose last declaration has a default, each with the default of its first. */
  lemma MergedMeans(current: Params, oldD: Describe, newD: Describe, k: string)
    ensures k in Merged(current, oldD, newD) <==>
              || (exists p, q :: LastDeclared(oldD.parameters, k, p) && LastDeclared(newD.parameters, k, q)
                                 && p.kind == q.kind)
              || (Undeclared(oldD.parameters, k)
                  && exists q :: LastDeclared(newD.parameters, k, q) && q.default != Null)
  {
    ByNameMeans(oldD.parameters, k);
    ByNameMeans(newD.parameters, k);
  }

  lemma MergedValues(current: Params, oldD: Describe, newD: Describe, k: string)
    requires k in Merged(current, oldD, newD)
    ensures !Undeclared(oldD.parameters, k) ==>
              Merged(current, oldD, newD)[k] == if k in current then current[k] else Null
    ensures Undeclared(oldD.parameters, k) ==>
              exists q :: FirstDeclared(newD.parameters, k, q) && Merged(current, oldD, newD)[k] == q.default
  {
    ByNameMeans(oldD.parameters, k);
    ByNameMeans(newD.parameters, k);
    FirstNamedIsFirst(newD.parameters, k);
  }

  lemma ByNameMeans(ps: seq<Parameter>, k: string)
    ensures k in ByName(ps) <==> !Undeclared(ps, k)
    ensures forall p :: LastDeclared(ps, k, p) <==> k in ByName(ps) && ByName(ps)[k] == p
  {
    ByNameIsLast(ps, k);
    OneLast(ps, k);
  }

  lemma OneLast(ps: seq<Parameter>, k: string)
    ensures forall p, q :: LastDeclared(ps, k, p) && LastDeclared(ps, k, q) ==> p == q
    ensures forall p :: LastDeclared(ps, k, p) ==> !Undeclared(ps, k)
  {
  }

  method MergeKeptAndDefaults(current: Params, ghost oldD: Describe, newD: Describe, diff: ParameterDiff)
    returns (out: Params)
    requires IsDiff(ByName(oldD.parameters), ByName(newD.parameters), diff)
    ensures out == Merged(current, oldD, newD)
  {
    forall name | name in diff.addedWithDefault
      ensures FirstNamed(newD.parameters, name).Some?
    {
      FirstNamedExists(newD.parameters, name);
    }
    out := CopyKept(current, diff.kept);
    out := AddDefaults(out, newD.parameters, diff.addedWithDefault);
    IsMerged(current, oldD, newD, diff, out);
  }

  lemma IsMerged(current: Params, oldD: Describe, newD: Describe, diff: ParameterDiff, out: Params)
    requires IsDiff(ByName(oldD.parameters), ByName(newD.parameters), diff)
    requires forall k :: k in out <==> k in diff.kept || k in diff.addedWithDefault
    requires forall k :: k in diff.kept && k !in diff.addedWithDefault ==> out[k] == Lookup(current, k)
    requires forall k :: k in diff.addedWithDefault ==>
               FirstNamed(newD.parameters, k).Some? && out[k] == FirstNamed(newD.parameters, k).value.default
    ensures out == Merged(current, oldD, newD)
  {
    var m := Merged(current, oldD, newD);
    forall k
      ensures k in out <==> k in m
      ensures k in out ==> out[k] == m[k]
    {
    }
  }

  method CopyKept(current: Params, kept: seq<string>) returns (out: Params)
    ensures out.Keys == set k | k in kept
    ensures forall k :: k in kept ==> out[k] == Lookup(current, k)
  {
    out := map[];
    for i := 0 to |kept|
      invariant out.Keys == set k | k in kept[..i]
      invariant forall k :: k in out ==> out[k] == Lookup(current, k)
    {
      assert kept[..i + 1] == kept[..i] + [kept[i]];
      out := out[kept[i] := Lookup(current, kept[i])];
    }
    assert kept[..|kept|] == kept;
  }

  method AddDefaults(base: Params, ps: seq<Parameter>, names: seq<string>) returns (out: Params)
    requires forall name :: name in names ==> FirstNamed(ps, name).Some?
    ensures out.Keys == base.Keys + set k | k in names
    ensures forall k :: k in base && k !in names ==> out[k] == base[k]
    ensures forall k :: k in names ==> out[k] == FirstNamed(ps, k).value.default
  {
    out := base;
    for i := 0 to |names|
      invariant out.Keys == base.Keys + set k | k in names[..i]
      invariant forall k :: k in base && k !in names[..i] ==> out[k] == base[k]
      invariant forall k :: k in names[..i] ==> out[k] == FirstNamed(ps, k).value.default
    {
      assert names[..i + 1] == names[..i] + [names[i]];
      var p := FindNamed(ps, names[i]);
      out := out[names[i] := p.default];
    }
    assert names[..|names|] == names;
  }

  /** The inner search of the merge. */
  method FindNamed(ps: seq<Parameter>, name: string) returns (p: Parameter)
    requires FirstNamed(ps, name).Some?
    ensures p == FirstNamed(ps, name).value
  {
    var i := 0;
    while ps[i].name != name
      invariant i < |ps| && FirstNamed(ps[i..], name) == FirstNamed(ps, name)
      decreases |ps| - i
    {
      assert ps[i..][1..] == ps[i + 1..];
      i := i + 1;
    }
    p := ps[i];
  }

  lemma NamesAreKeys(d: Describe)
    ensures Names(d) == ByName(d.parameters).Keys
  {
  }

  /** A diff is compatible exactly when the merge loses nothing: the merged
      parameters are valid for the new describe and every stored value survives
      in them unchanged. */
  lemma CompatibleIffLossless(current: Params, oldD: Describe, newD: Describe, diff: ParameterDiff)
    requires Valid(current, oldD) && IsDiff(ByName(oldD.parameters), ByName(newD.parameters), diff)
    ensures Compatible(diff) <==>
              && Valid(Merged(current, oldD, newD), newD)
              && forall k :: k in current ==>
                   k in Merged(current, oldD, newD) && Merged(current, oldD, newD)[k] == current[k]
  {
    var o, n := ByName(oldD.parameters), ByName(newD.parameters);
    var m := Merged(current, oldD, newD);
    if Compatible(diff) {
      MergeValid(current, oldD, newD, diff);
      forall k | k in current
        ensures k in m && m[k] == current[k]
      {
        assert !IsRemoved(o, n, k);
        assert !IsRetyped(o, n, Retype(k, o[k].kind, if k in n then n[k].kind else ""));
      }
    } else if diff.removed != [] {
      assert IsRemoved(o, n, diff.removed[0]) by { assert diff.removed[0] in diff.removed; }
      assert diff.removed[0] in current && diff.removed[0] !in m;
    } else if diff.retyped != [] {
      assert IsRetyped(o, n, diff.retyped[0]) by { assert diff.retyped[0] in diff.retyped; }
      assert diff.retyped[0].name in Names(newD) && diff.retyped[0].name !in m;
    } else {
      var k := diff.addedWithoutDefault[0];
      assert IsAdded(o, n, k, false) by { assert k in diff.addedWithoutDefault; }
      assert k in Names(newD) && k !in m;
    }
  }

  /** The merge of a compatible diff is valid for the new describe, whatever the
      current parameters are. */
  lemma MergeValid(current: Params, oldD: Describe, newD: Describe, diff: ParameterDiff)
    requires IsDiff(ByName(oldD.parameters), ByName(newD.parameters), diff) && Compatible(diff)
    ensures Valid(Merged(current, oldD, newD), newD)
  {
    var o, n := ByName(oldD.parameters), ByName(newD.parameters);
    forall k | k in n
      ensures IsKept(o, n, k) || IsAdded(o, n, k, true)
    {
      assert !IsAdded(o, n, k, false);
      if k in o {
        assert !IsRetyped(o, n, Retype(k, o[k].kind, n[k].kind));
      }
    }
  }

  // ----------------------------------------------------------------- presets

  /** Preset equality is canonical-JSON equality; any relation will do here. */
  function FirstMatch(presets: seq<Preset>, current: Params, same: (Params, Params) -> bool): Option<string> {
    if presets == [] then None
    else if same(presets[0].parameters, current) then Some(presets[0].name)
    else FirstMatch(presets[1..], current, same)
  }

  method MatchPresetName(current: Params, d: Describe, same: (Params, Params) -> bool) returns (name: Option<string>)
    ensures name == FirstMatch(d.presets, current, same)
    ensures name.None? <==> forall p :: p in d.presets ==> !same(p.parameters, current)
    ensures name.Some? ==> exists i :: 0 <= i < |d.presets| && d.presets[i].name == name.value
                                       && same(d.presets[i].parameters, current)
                                       && forall j :: 0 <= j < i ==> !same(d.presets[j].parameters, current)
  {
    for i := 0 to |d.presets|
      invariant FirstMatch(d.presets[i..], current, same) == FirstMatch(d.presets, current, same)
      invariant forall j :: 0 <= j < i ==> !same(d.presets[j].parameters, current)
    {
      assert d.presets[i..][1..] == d.presets[i + 1..];
      if same(d.presets[i].parameters, current) {
        assert d.presets[i] in d.presets;
        return Some(d.presets[i].name);
      }
    }
    return None;
  }

  // ----------------------------------------------------------------- upgrade

  /** The part of a portfolio row that upgrades read and write. */
  datatype Stored = Stored(ver: Option<string>, describe: Describe, params: Params, preset: Option<string>)

  datatype Target = Target(ver: string, describe: Describe)

  datatype Outcome =
    | AlreadyAtLatest
    | StoredDescribeInvalid
    | RegistryDescribeInvalid
    | InvalidParams
    | IncompatibleParams
    | NotFound
    | Applied

  /** What the upgrade's submission of a backtest was answered, if there was one. */
  datatype RunAnswer = NotSubmitted | Started(id: nat) | Refused(why: string)

  /** What the upgrade decides to store for a row that it has read as p. */
  ghost function NextParams(p: Stored, t: Target, body: Option<Params>): Option<Params> {
    match body
    case Some(b) => if Valid(b, t.describe) then Some(b) else None
    case None => if CanMerge(p.describe, t.describe) then Some(Merged(p.params, p.describe, t.describe)) else None
  }

  /** No name of the old describe is gone or has another type, and every new
      name has a default. */
  ghost predicate CanMerge(oldD: Describe, newD: Describe) {
    var o, n := ByName(oldD.parameters), ByName(newD.parameters);
    && (forall k :: k in o ==> k in n && o[k].kind == n[k].kind)
    && (forall k :: k in n && k !in o ==> n[k].default != Null)
  }

  lemma CompatibleIsCanMerge(oldD: Describe, newD: Describe, diff: ParameterDiff)
    requires IsDiff(ByName(oldD.parameters), ByName(newD.parameters), diff)
    ensures Compatible(diff) <==> CanMerge(oldD, newD)
  {
    var o, n := ByName(oldD.parameters), ByName(newD.parameters);
    if Compatible(diff) {
      forall k | k in o
        ensures k in n && o[k].kind == n[k].kind
      {
        assert !IsRemoved(o, n, k);
        assert !IsRetyped(o, n, Retype(k, o[k].kind, if k in n then n[k].kind else ""));
      }
      forall k | k in n && k !in o
        ensures n[k].default != Null
      {
        assert !IsAdded(o, n, k, false);
      }
    } else if diff.removed != [] {
      assert diff.removed[0] in diff.removed;
    } else if diff.retyped != [] {
      assert diff.retyped[0] in diff.retyped;
    } else {
      assert diff.addedWithoutDefault[0] in diff.addedWithoutDefault;
    }
  }

  function WithDescribe(p: Stored, json: DescribeJson): Stored {
    p.(describe := if json.Parsed? then json.d else Describe([], [], ""))
  }

  /** A portfolio without a stored describe can be upgraded exactly when every
      name of the new one has a default in its last declaration. */
  lemma NoStoredDescribe(p: Stored, newD: Describe)
    ensures CanMerge(WithDescribe(p, Absent).describe, newD) <==>
              forall q, k :: LastDeclared(newD.parameters, k, q) ==> q.default != Null
  {
    var n := ByName(newD.parameters);
    forall k
      ensures k in n ==> LastDeclared(newD.parameters, k, n[k])
    {
      ByNameIsLast(newD.parameters, k);
    }
    forall q, k | LastDeclared(newD.parameters, k, q)
      ensures k in n && n[k] == q
    {
      ByNameIsLast(newD.parameters, k);
      OneLast(newD.parameters, k);
    }
  }

  class Portfolios {
    var rows: map<nat, Stored>
    const same: (Params, Params) -> bool

    constructor (same: (Params, Params) -> bool)
      ensures rows == map[] && this.same == same
    {
      rows, this.same := map[], same;
    }

    /** ApplyUpgrade: one transaction. */
    method ApplyUpgrade(id: nat, next: Stored) returns (found: bool)
      modifies this
      ensures found <==> id in old(rows)
      ensures rows == if found then old(rows)[id := next] else old(rows)
    {
      found := id in rows;
      if found {
        rows := rows[id := next];
      }
    }

    /** Upgrades portfolio id to the installed version. Its version and parameters
        were last read as p; the describes stored with it and in the registry
        come as JSON, and an empty stored one counts as a describe without
        parameters. A backtest is submitted exactly when the upgrade was applied,
        which it stays whatever the dispatcher answers. */
    method DoUpgrade(id: nat, p: Stored, stored: DescribeJson, ver: string, registry: DescribeJson,
                     body: Option<Params>, dispatcher: RunAnswer)
      returns (res: Outcome, run: RunAnswer)
      modifies this
      ensures res == AlreadyAtLatest <==> p.ver == Some(ver)
      ensures p.ver != Some(ver) ==>
                && (res == StoredDescribeInvalid <==> stored.Malformed?)
                && (res == RegistryDescribeInvalid <==> !stored.Malformed? && !registry.Parsed?)
      ensures p.ver != Some(ver) && !stored.Malformed? && registry.Parsed? ==>
                match NextParams(WithDescribe(p, stored), Target(ver, registry.d), body)
                case None => res == if body.Some? then InvalidParams else IncompatibleParams
                case Some(next) => res == if id in old(rows) then Applied else NotFound
      ensures run == if res == Applied then dispatcher else NotSubmitted
      ensures res != Applied ==> rows == old(rows)
      ensures res == Applied ==>
                var next := NextParams(WithDescribe(p, stored), Target(ver, registry.d), body).value;
                rows == old(rows)[id := Stored(Some(ver), registry.d, next, FirstMatch(registry.d.presets, next, same))]
      ensures !stored.Malformed? && registry.Parsed? ==>
                exists preset ::
                  rows == Written(old(rows), id, WithDescribe(p, stored), Target(ver, registry.d), body, preset)
    {
      if p.ver == Some(ver) {
        if registry.Parsed? {
          assert rows == Written(rows, id, WithDescribe(p, stored), Target(ver, registry.d), body, None);
        }
        return AlreadyAtLatest, NotSubmitted;
      }
      if stored.Malformed? {
        return StoredDescribeInvalid, NotSubmitted;
      }
      if !registry.Parsed? {
        return RegistryDescribeInvalid, NotSubmitted;
      }
      var t := Target(ver, registry.d);
      ghost var before := rows;
      res := UpgradeTo(id, WithDescribe(p, stored), t, body);
      ghost var preset := if res == Applied then rows[id].preset else None;
      assert rows == Written(before, id, WithDescribe(p, stored), t, body, preset);
      run := if res == Applied then dispatcher else NotSubmitted;
    }

    /** The part of doUpgrade that follows once both describes are decoded. */
    method UpgradeTo(id: nat, p: Stored, t: Target, body: Option<Params>) returns (res: Outcome)
      modifies this
      ensures res in {InvalidParams, IncompatibleParams, NotFound, Applied}
      ensures match NextParams(p, t, body)
                case None => res == if body.Some? then InvalidParams else IncompatibleParams
                case Some(next) => res == if id in old(rows) then Applied else NotFound
      ensures res != Applied ==> rows == old(rows)
      ensures res == Applied ==>
                var next := NextParams(p, t, body).value;
                var preset := FirstMatch(t.describe.presets, next, same);
                rows == old(rows)[id := Stored(Some(t.ver), t.describe, next, preset)]
    {
      var diff := DiffParameters(p.describe, t.describe);
      CompatibleIsCanMerge(p.describe, t.describe, diff);
      var next: Params;
      if body.Some? {
        var err := ValidateParameters(body.value, t.describe);
        if err.Some? {
          return InvalidParams;
        }
        next := body.value;
      } else if Compatible(diff) {
        next := MergeKeptAndDefaults(p.params, p.describe, t.describe, diff);
      } else {
        return IncompatibleParams;
      }
      var preset := MatchPresetName(next, t.describe, same);
      var found := ApplyUpgrade(id, Stored(Some(t.ver), t.describe, next, preset));
      res := if found then Applied else NotFound;
    }
  }

  lemma NextIsValid(p: Stored, t: Target, body: Option<Params>)
    requires NextParams(p, t, body).Some?
    ensures Valid(NextParams(p, t, body).value, t.describe)
    ensures body.None? && Valid(p.params, p.describe) ==>
              forall k :: k in p.params ==>
                k in NextParams(p, t, body).value && NextParams(p, t, body).value[k] == p.params[k]
  {
    NamesAreKeys(t.describe);
  }

  // ------------------------------------------------ any interleaving of calls

  /** Rows, and the row copies that upgrades in progress are working on. */
  datatype State = State(rows: map<nat, Stored>, reading: map<nat, (nat, Stored)>)

  datatype Step =
    | Create(id: nat, req: CreateRequest, s: Strategy, preset: Option<string>)
    | Read(u: nat, id: nat)
    | Write(u: nat, t: Target, body: Option<Params>, preset: Option<string>)
    | Delete(id: nat)

  ghost function Apply(st: State, step: Step): State {
    match step
    case Create(id, req, s, preset) =>
      var v := ValidateCreate(req, s);
      if v.Ok? && id !in st.rows
      then st.(rows := st.rows[id := Stored(Some(v.value.strategyVer), s.describe.d, v.value.parameters, preset)])
      else st
    case Read(u, id) => if id in st.rows then st.(reading := st.reading[u := (id, st.rows[id])]) else st
    case Write(u, t, body, preset) =>
      if u !in st.reading then st
      else
        var (id, p) := st.reading[u];
        var done := st.(reading := st.reading - {u});
        var next := NextParams(p, t, body);
        if p.ver == Some(t.ver) || next.None? || id !in st.rows then done
        else done.(rows := st.rows[id := Stored(Some(t.ver), t.describe, next.value, preset)])
    case Delete(id) => st.(rows := st.rows - {id})
  }

  /** The rows after a write of an upgrade that has read row id as p. */
  ghost function Written(rows: map<nat, Stored>, id: nat, p: Stored, t: Target, body: Option<Params>,
                         preset: Option<string>): map<nat, Stored> {
    Apply(State(rows, map[0 := (id, p)]), Write(0, t, body, preset)).rows
  }

  ghost function Exec(steps: seq<Step>): State {
    if steps == [] then State(map[], map[]) else Apply(Exec(steps[..|steps| - 1]), steps[|steps| - 1])
  }

  ghost predicate AllValid(st: State) {
    && (forall id :: id in st.rows ==> Valid(st.rows[id].params, st.rows[id].describe))
    && (forall u :: u in st.reading ==> Valid(st.reading[u].1.params, st.reading[u].1.describe))
  }

  /** After any interleaving of creates, deletes and the reads and writes of any
      number of concurrent upgrades, every stored parameter map is valid for
      the describe stored beside it. */
  lemma {:induction false} StoredAlwaysValid(steps: seq<Step>)
    ensures AllValid(Exec(steps))
  {
    if steps != [] {
      var st, step := Exec(steps[..|steps| - 1]), steps[|steps| - 1];
      StoredAlwaysValid(steps[..|steps| - 1]);
      if step.Write? && step.u in st.reading {
        var (id, p) := st.reading[step.u];
        if NextParams(p, step.t, step.body).Some? {
          NextIsValid(p, step.t, step.body);
        }
      }
    }
  }

  // ------------------------------------------------------------ lost updates

  ghost function ExecFrom(st: State, steps: seq<Step>): State {
    if steps == [] then st else Apply(ExecFrom(st, steps[..|steps| - 1]), steps[|steps| - 1])
  }

  /** The step neither writes row id nor disturbs the upgrade u that works on it. */
  ghost predicate Leaves(st: State, step: Step, id: nat, u: nat) {
    match step
    case Create(_, _, _, _) => true
    case Read(v, _) => v != u
    case Write(v, _, _, _) => v != u && (v in st.reading ==> st.reading[v].0 != id)
    case Delete(i) => i != id
  }

  ghost predicate AllLeave(st: State, steps: seq<Step>, id: nat, u: nat) {
    steps == [] || (AllLeave(st, steps[..|steps| - 1], id, u)
                    && Leaves(ExecFrom(st, steps[..|steps| - 1]), steps[|steps| - 1], id, u))
  }

  /** Until another upgrade writes the row, it is still the one that was read. */
  lemma {:induction false} ReadStaysCurrent(st: State, id: nat, u: nat, steps: seq<Step>)
    requires id in st.rows && u in st.reading && st.reading[u] == (id, st.rows[id]) && AllLeave(st, steps, id, u)
    ensures var after := ExecFrom(st, steps);
            id in after.rows && u in after.reading && after.rows[id] == st.rows[id] && after.reading[u] == st.reading[u]
  {
    if steps != [] {
      ReadStaysCurrent(st, id, u, steps[..|steps| - 1]);
    }
  }

  ghost predicate Survives(before: Params, after: Params) {
    forall k :: k in before ==> k in after && after[k] == before[k]
  }

  function DefaultOf(d: Describe, k: string): Value {
    var p := FirstNamed(d.parameters, k);
    if p.Some? then p.value.default else Null
  }

  /** The value of k is as it was read, or was added since and is the new default. */
  ghost predicate Unmoved(read: Params, t: Describe, now: Params, k: string)
    requires k in now
  {
    if k in read then read[k] == now[k] else k in Names(t) && DefaultOf(t, k) == now[k]
  }

  /** What a merge of the row as read keeps of the row as it is now: exactly the
      values that did not move in between. */
  lemma MergeSurvivesIff(read: Stored, t: Describe, now: Params, k: string)
    requires Valid(read.params, read.describe) && CanMerge(read.describe, t) && k in now
    ensures var next := Merged(read.params, read.describe, t);
            (k in next && next[k] == now[k]) <==> Unmoved(read.params, t, now, k)
  {
    NamesAreKeys(t);
    NamesAreKeys(read.describe);
  }

  /** The same of a write in the middle of other upgrades: every value of the row
      survives exactly when none of them moved since the read. */
  lemma WriteSurvivesIff(st: State, u: nat, t: Target, preset: Option<string>)
    requires AllValid(st) && u in st.reading && st.reading[u].0 in st.rows
    requires st.reading[u].1.ver != Some(t.ver) && CanMerge(st.reading[u].1.describe, t.describe)
    ensures var id, read := st.reading[u].0, st.reading[u].1;
            var now, after := st.rows[id].params, Apply(st, Write(u, t, None, preset));
            id in after.rows
            && (Survives(now, after.rows[id].params) <==>
                  forall k :: k in now ==> Unmoved(read.params, t.describe, now, k))
  {
    var id, read := st.reading[u].0, st.reading[u].1;
    var now := st.rows[id].params;
    forall k | k in now
      ensures var next := Merged(read.params, read.describe, t.describe);
              (k in next && next[k] == now[k]) <==> Unmoved(read.params, t.describe, now, k)
    {
      MergeSurvivesIff(read, t.describe, now, k);
    }
  }

  /** So an upgrade that no other one of the same row overtook loses nothing. */
  lemma UndisturbedKeepsAll(st: State, id: nat, u: nat, steps: seq<Step>, t: Target, preset: Option<string>)
    requires AllValid(st) && id in st.rows && AllLeave(Apply(st, Read(u, id)), steps, id, u)
    requires CanMerge(st.rows[id].describe, t.describe)
    ensures var before := ExecFrom(Apply(st, Read(u, id)), steps);
            var after := Apply(before, Write(u, t, None, preset));
            id in before.rows && id in after.rows && Survives(before.rows[id].params, after.rows[id].params)
  {
    var reading := Apply(st, Read(u, id));
    ReadStaysCurrent(reading, id, u, steps);
    var before := ExecFrom(reading, steps);
    if before.rows[id].ver != Some(t.ver) {
      NextIsValid(before.rows[id], t, None);
    }
  }

  const OLD_DESCRIBE := Describe([Parameter("a", "int", Null)], [], "")
  const STORED_ONE: Params := map["a" := Json("1")]
  const GIVEN_TWO: Params := map["a" := Json("2")]
  const ROW_ONE := Stored(Some("v1"), OLD_DESCRIBE, STORED_ONE, None)
  const NEW_TARGET := Target("v2", OLD_DESCRIBE)

  const CREATE_ONE := Create(0, CreateRequest("", STORED_ONE, "", None, None, None),
                             Strategy(Some("v1"), Parsed(OLD_DESCRIBE)), None)

  /** Two upgrades have read the same row. */
  const BOTH_READ := State(map[0 := ROW_ONE], map[1 := (0, ROW_ONE), 2 := (0, ROW_ONE)])

  lemma BothRead()
    ensures Exec([CREATE_ONE, Read(1, 0), Read(2, 0)]) == BOTH_READ
  {
    var a, b, c := CREATE_ONE, Read(1, 0), Read(2, 0);
    assert [a, b, c][..2] == [a, b] && [a, b][..1] == [a] && [a][..0] == [];
    OneName();
    var created := State(map[0 := ROW_ONE], map[]);
    assert Exec([a]) == created;
    assert Exec([a, b]) == created.(reading := map[1 := (0, ROW_ONE)]);
  }

  lemma OneName()
    ensures Names(OLD_DESCRIBE) == {"a"} && Valid(STORED_ONE, OLD_DESCRIBE) && Valid(GIVEN_TWO, OLD_DESCRIBE)
  {
    assert OLD_DESCRIBE.parameters[0] in OLD_DESCRIBE.parameters;
  }

  /** And one that was overtaken can undo what the other wrote: an explicit value
      for a parameter, given to a concurrent upgrade to the same version, is
      replaced by the stored one. */
  lemma OvertakenUpgradeLoses()
    ensures var before := [CREATE_ONE, Read(1, 0), Read(2, 0)];
            var first, second := Write(2, NEW_TARGET, Some(GIVEN_TWO), None), Write(1, NEW_TARGET, None, None);
            var written, after := Exec(before + [first]), Exec(before + [first] + [second]);
            && 0 in written.rows && written.rows[0].params == GIVEN_TWO
            && 0 in after.rows && after.rows[0].params == STORED_ONE
  {
    var before := [CREATE_ONE, Read(1, 0), Read(2, 0)];
    var first, second := Write(2, NEW_TARGET, Some(GIVEN_TWO), None), Write(1, NEW_TARGET, None, None);
    BothRead();
    assert (before + [first])[..3] == before;
    assert (before + [first] + [second])[..4] == before + [first];
    FirstWrite();
    SecondWrite();
  }

  const WRITTEN_TWO := State(map[0 := Stored(Some("v2"), OLD_DESCRIBE, GIVEN_TWO, None)], map[1 := (0, ROW_ONE)])

  lemma FirstWrite()
    ensures Apply(BOTH_READ, Write(2, NEW_TARGET, Some(GIVEN_TWO), None)) == WRITTEN_TWO
  {
    OneName();
  }

  lemma SecondWrite()
    ensures var after := Apply(WRITTEN_TWO, Write(1, NEW_TARGET, None, None));
            0 in after.rows && after.rows[0].params == STORED_ONE
  {
    OneName();
    assert OLD_DESCRIBE.parameters[..0] == [];
    assert ByName(OLD_DESCRIBE.parameters) == map["a" := Parameter("a", "int", Null)];
    assert Merged(STORED_ONE, OLD_DESCRIBE, OLD_DESCRIBE) == STORED_ONE;
  }
}
