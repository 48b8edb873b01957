/** Applying the health endpoints of phelix.yaml to an application's health
    configuration (cmd/project_config.go, syncProjectHealth).  Names may repeat
    in the declared list, and the map of declared names is walked in an
    arbitrary order. */
module HealthSync {
  import opened Options
  import opened Names

  datatype Endpoint = Endpoint(name: Name, path: string, interval: string, retries: int, mode: string, codes: string, timeout: string)

  datatype Check = Check(id: string, name: Name, url: string, interval: string, retries: int, codes: string, timeout: string)

  datatype Tier = Tier(mode: string, path: string)

  const Fresh := Check("", Name(""), "", "10s", 3, "200-299", "10s")

  type Url = string -> string     // "http://localhost:<port>" and the path

  // ---- What one endpoint becomes -----------------------------------------

  function Pick(declared: string, before: string): string {
    if declared != "" then declared else before
  }

  /** One declaration over what the endpoint was. */
  function Declare(before: Option<Check>, ep: Endpoint, url: Url): Check {
    var base := if before.Some? then before.value else Fresh;
    Check(base.id, ep.name, url(ep.path), Pick(ep.interval, base.interval),
          if ep.retries != 0 then ep.retries else base.retries,
          Pick(ep.codes, base.codes), Pick(ep.timeout, base.timeout))
  }

  /** A declaration sets the name and the URL, keeps the identity, and changes
      every other field only if it sets it; a new endpoint starts from the
      defaults. */
  lemma DeclareMeans(before: Option<Check>, ep: Endpoint, url: Url)
    ensures var after := Declare(before, ep, url);
      && after.name == ep.name && after.url == url(ep.path)
      && (ep.interval != "" ==> after.interval == ep.interval) && (ep.codes != "" ==> after.codes == ep.codes)
      && (ep.timeout != "" ==> after.timeout == ep.timeout) && (ep.retries != 0 ==> after.retries == ep.retries)
      && (before.Some? ==>
            && after.id == before.value.id
            && (ep.interval == "" ==> after.interval == before.value.interval) && (ep.codes == "" ==> after.codes == before.value.codes)
            && (ep.timeout == "" ==> after.timeout == before.value.timeout) && (ep.retries == 0 ==> after.retries == before.value.retries))
      && (before.None? ==>
            && (ep.interval == "" ==> after.interval == "10s") && (ep.codes == "" ==> after.codes == "200-299")
            && (ep.timeout == "" ==> after.timeout == "10s") && (ep.retries == 0 ==> after.retries == 3))
  {
  }

  /** All declarations of one name, in order. */
  function Declared(before: Option<Check>, eps: seq<Endpoint>, name: Name, url: Url): Option<Check> {
    if |eps| == 0 then before
    else
      var rest := Declared(before, eps[..|eps| - 1], name, url);
      if eps[|eps| - 1].name == name then Some(Declare(rest, eps[|eps| - 1], url)) else rest
  }

  ghost function DeclaredNames(eps: seq<Endpoint>): set<Name> {
    set k | 0 <= k < |eps| :: eps[k].name
  }

  function IntervalOf(e: Endpoint): string { e.interval }
  function CodesOf(e: Endpoint): string { e.codes }
  function TimeoutOf(e: Endpoint): string { e.timeout }
  function RetriesOf(e: Endpoint): int { e.retries }

  /** Whether the list declares the name with a set field, and then the last one
      that does. */
  function LastSet<T(==)>(eps: seq<Endpoint>, name: Name, field: Endpoint -> T, unset: T): T {
    if |eps| == 0 then unset
    else if eps[|eps| - 1].name == name && field(eps[|eps| - 1]) != unset then field(eps[|eps| - 1])
    else LastSet(eps[..|eps| - 1], name, field, unset)
  }

  /** Either no declaration of the name sets the field, or this is the last one
      that does. */
  lemma {:induction false} LastSetMeans<T>(eps: seq<Endpoint>, name: Name, field: Endpoint -> T, unset: T)
    ensures LastSet(eps, name, field, unset) == unset ==>
      forall k :: 0 <= k < |eps| && eps[k].name == name ==> field(eps[k]) == unset
    ensures LastSet(eps, name, field, unset) != unset ==>
      exists k :: 0 <= k < |eps| && eps[k].name == name && field(eps[k]) == LastSet(eps, name, field, unset)
                  && forall j :: k < j < |eps| && eps[j].name == name ==> field(eps[j]) == unset
  {
    if |eps| > 0 {
      var n := |eps| - 1;
      LastSetMeans(eps[..n], name, field, unset);
      if !(eps[n].name == name && field(eps[n]) != unset) {
        if LastSet(eps[..n], name, field, unset) != unset {
          var k :| 0 <= k < n && eps[..n][k].name == name && field(eps[..n][k]) == LastSet(eps[..n], name, field, unset)
                   && forall j :: k < j < n && eps[..n][j].name == name ==> field(eps[..n][j]) == unset;
          assert eps[k] == eps[..n][k];
          forall j | k < j < |eps| && eps[j].name == name ensures field(eps[j]) == unset {
            if j < n { assert eps[..n][j] == eps[j]; }
          }
        } else {
          forall k | 0 <= k < |eps| && eps[k].name == name ensures field(eps[k]) == unset {
            if k < n { assert eps[..n][k] == eps[k]; }
          }
        }
      }
    }
  }

  /** Every field on its own: the last declaration that sets it, else what the
      endpoint had, else the default; the identity never changes. */
  lemma {:induction false} FieldsOf(before: Option<Check>, eps: seq<Endpoint>, name: Name, url: Url)
    requires name in DeclaredNames(eps)
    ensures var base := if before.Some? then before.value else Fresh;
      var after := Declared(before, eps, name, url);
      && after.Some? && after.value.name == name && after.value.id == base.id
      && after.value.interval == Pick(LastSet(eps, name, IntervalOf, ""), base.interval)
      && after.value.codes == Pick(LastSet(eps, name, CodesOf, ""), base.codes)
      && after.value.timeout == Pick(LastSet(eps, name, TimeoutOf, ""), base.timeout)
      && after.value.retries == (var r := LastSet(eps, name, RetriesOf, 0); if r != 0 then r else base.retries)
      && exists k :: 0 <= k < |eps| && eps[k].name == name && after.value.url == url(eps[k].path)
           && forall j :: k < j < |eps| ==> eps[j].name != name
    decreases |eps|
  {
    var n := |eps| - 1;
    var init := eps[..n];
    if name in DeclaredNames(init) {
      FieldsOf(before, init, name, url);
    } else {
      NotDeclared(before, init, name, url);
    }
  }

  lemma {:induction false} NotDeclared(before: Option<Check>, eps: seq<Endpoint>, name: Name, url: Url)
    requires name !in DeclaredNames(eps)
    ensures Declared(before, eps, name, url) == before
    ensures LastSet(eps, name, IntervalOf, "") == ""
    ensures LastSet(eps, name, CodesOf, "") == ""
    ensures LastSet(eps, name, TimeoutOf, "") == ""
    ensures LastSet(eps, name, RetriesOf, 0) == 0
    decreases |eps|
  {
    if |eps| > 0 {
      assert eps[|eps| - 1].name in DeclaredNames(eps);
      NotDeclared(before, eps[..|eps| - 1], name, url);
    }
  }

  /** Declaring the same list again changes nothing more. */
  lemma DeclaredTwice(before: Option<Check>, eps: seq<Endpoint>, name: Name, url: Url)
    ensures Declared(Declared(before, eps, name, url), eps, name, url) == Declared(before, eps, name, url)
  {
    var once := Declared(before, eps, name, url);
    if name in DeclaredNames(eps) {
      FieldsOf(before, eps, name, url);
      FieldsOf(once, eps, name, url);
    } else {
      NotDeclared(before, eps, name, url);
      NotDeclared(once, eps, name, url);
    }
  }

  // ---- What the whole configuration becomes ------------------------------

  type Endpoints = map<Name, Check>

  function Lookup(endpoints: Endpoints, name: Name): Option<Check> {
    if name in endpoints then Some(endpoints[name]) else None
  }

  /** The names are exactly the declared ones under replace and the union
      otherwise; every declared endpoint is what its declarations make of it;
      every other endpoint that stays is untouched. */
  ghost predicate Merged(before: Endpoints, after: Endpoints, eps: seq<Endpoint>, replacing: bool, url: Url) {
    && after.Keys == (if replacing then DeclaredNames(eps) else before.Keys + DeclaredNames(eps))
    && (forall name :: name in DeclaredNames(eps) ==> Lookup(after, name) == Declared(Lookup(before, name), eps, name, url))
    && (forall name :: name in after && name !in DeclaredNames(eps) ==> Lookup(after, name) == Lookup(before, name))
  }

  /** The merge is a function of its inputs. */
  lemma MergedIsUnique(before: Endpoints, a: Endpoints, b: Endpoints, eps: seq<Endpoint>, replacing: bool, url: Url)
    requires Merged(before, a, eps, replacing, url) && Merged(before, b, eps, replacing, url)
    ensures a == b
  {
    forall name | name in a ensures name in b && a[name] == b[name] {
      assert name in a.Keys && name in b.Keys;
      assert Lookup(a, name) == Lookup(b, name);
    }
    assert a.Keys == b.Keys;
  }

  /** Merging a second time changes nothing. */
  lemma MergedTwice(before: Endpoints, once: Endpoints, twice: Endpoints, eps: seq<Endpoint>, replacing: bool, url: Url)
    requires Merged(before, once, eps, replacing, url) && Merged(once, twice, eps, replacing, url)
    ensures once == twice
  {
    forall name | name in DeclaredNames(eps)
      ensures Lookup(once, name) == Declared(Lookup(once, name), eps, name, url)
    {
      DeclaredTwice(Lookup(before, name), eps, name, url);
    }
    assert Merged(once, once, eps, replacing, url);
    MergedIsUnique(once, once, twice, eps, replacing, url);
  }

  /** The dropped list: sorted, without repetition, exactly the names that went. */
  ghost predicate DroppedFrom(before: Endpoints, dropped: seq<Name>, eps: seq<Endpoint>, replacing: bool) {
    && Sorted(dropped) && Distinct(dropped)
    && Elements(dropped) == if replacing then before.Keys - DeclaredNames(eps) else {}
  }

  /** Whatever order the map was walked in, the dropped list is the same. */
  lemma DroppedIsUnique(before: Endpoints, a: seq<Name>, b: seq<Name>, eps: seq<Endpoint>, replacing: bool)
    requires DroppedFrom(before, a, eps, replacing) && DroppedFrom(before, b, eps, replacing)
    ensures a == b
  {
    SortedIsUnique(a, b);
  }

  // ---- The code ----------------------------------------------------------

  class HealthConfig {
    var endpoints: Endpoints
    var tier: Option<Tier>

    constructor (endpoints: Endpoints, tier: Option<Tier>)
      ensures this.endpoints == endpoints && this.tier == tier
    {
      this.endpoints, this.tier := endpoints, tier;
    }

    /** The loop over the declared list. */
    method DeclareAll(eps: seq<Endpoint>, marks: map<Name, bool>, url: Url) returns (declared: map<Name, bool>)
      modifies this`endpoints
      ensures Merged(old(endpoints), endpoints, eps, false, url)
      ensures declared.Keys == marks.Keys + DeclaredNames(eps)
      ensures forall name :: name in declared ==> declared[name] == (name in DeclaredNames(eps) || marks[name])
    {
      declared := marks;
      var i := 0;
      while i < |eps|
        invariant 0 <= i <= |eps|
        invariant Merged(old(endpoints), endpoints, eps[..i], false, url)
        invariant declared.Keys == marks.Keys + DeclaredNames(eps[..i])
        invariant forall name :: name in declared ==> declared[name] == (name in DeclaredNames(eps[..i]) || marks[name])
      {
        var ep := eps[i];
        DeclareOne(old(endpoints), endpoints, eps, i, url);
        NamesGrow(eps, i);
        declared := declared[ep.name := true];
        endpoints := endpoints[ep.name := Declare(Lookup(endpoints, ep.name), ep, url)];
        i := i + 1;
      }
      assert eps[..i] == eps;
    }

    /** syncProjectHealth: nothing is declared, nothing happens; a failing save
        changes nothing either. */
    method Sync(eps: seq<Endpoint>, replacing: bool, url: Url, saveFails: bool) returns (ok: bool, dropped: seq<Name>)
      modifies this
      ensures ok <==> eps == [] || !saveFails
      ensures eps == [] || saveFails ==> endpoints == old(endpoints) && tier == old(tier) && dropped == []
      ensures eps != [] && !saveFails ==>
        && Merged(old(endpoints), endpoints, eps, replacing, url)
        && DroppedFrom(old(endpoints), dropped, eps, replacing)
        && tier == Some(Tier(if eps[0].mode == "" then "auto" else eps[0].mode, eps[0].path))
    {
      dropped := [];
      if |eps| == 0 {
        return true, [];
      }
      var saved, savedTier := endpoints, tier;
      var marks: map<Name, bool> := map[];
      if replacing {
        marks := map name | name in endpoints :: false;
      }
      var declared := DeclareAll(eps, marks, url);
      if replacing {
        ghost var merged := endpoints;
        dropped := DropUndeclared(declared);
        assert Elements(dropped) == saved.Keys - DeclaredNames(eps);
        DroppedMerges(saved, merged, Elements(dropped), eps, url);
      }
      SortKeeps(dropped);
      dropped := Sort(dropped);
      tier := Some(Tier(Pick(eps[0].mode, "auto"), eps[0].path));
      if saveFails {
        endpoints, tier := saved, savedTier;
        return false, [];
      }
      return true, dropped;
    }

    /** The walk over the map of declared names, in any order. */
    method DropUndeclared(declared: map<Name, bool>) returns (dropped: seq<Name>)
      modifies this`endpoints
      ensures Distinct(dropped)
      ensures Elements(dropped) == set name | name in declared && !declared[name]
      ensures endpoints == old(endpoints) - Elements(dropped)
    {
      dropped := [];
      var left := declared.Keys;
      ghost var gone: set<Name> := {};
      while left != {}
        invariant left <= declared.Keys
        invariant Distinct(dropped) && Elements(dropped) == gone
        invariant gone == set name | name in declared && name !in left && !declared[name]
        invariant endpoints == old(endpoints) - gone
        decreases |left|
      {
        var name :| name in left;
        left := left - {name};
        if !declared[name] {
          Appended(dropped, name);
          dropped := dropped + [name];
          gone := gone + {name};
          endpoints := endpoints - {name};
        }
      }
    }
  }

  lemma Appended(xs: seq<Name>, x: Name)
    requires Distinct(xs) && x !in Elements(xs)
    ensures Distinct(xs + [x]) && Elements(xs + [x]) == Elements(xs) + {x}
  {
  }

  lemma DroppedMerges(before: Endpoints, merged: Endpoints, gone: set<Name>, eps: seq<Endpoint>, url: Url)
    requires Merged(before, merged, eps, false, url)
    requires gone == before.Keys - DeclaredNames(eps)
    ensures Merged(before, merged - gone, eps, true, url)
  {
  }

  lemma NamesGrow(eps: seq<Endpoint>, i: nat)
    requires i < |eps|
    ensures DeclaredNames(eps[..i + 1]) == DeclaredNames(eps[..i]) + {eps[i].name}
  {
    forall name | name in DeclaredNames(eps[..i + 1]) ensures name in DeclaredNames(eps[..i]) + {eps[i].name} {
      var k :| 0 <= k < i + 1 && eps[..i + 1][k].name == name;
      assert k < i ==> eps[..i][k].name == name;
    }
    forall name | name in DeclaredNames(eps[..i]) ensures name in DeclaredNames(eps[..i + 1]) {
      var k :| 0 <= k < i && eps[..i][k].name == name;
      assert eps[..i + 1][k].name == name;
    }
    assert eps[..i + 1][i].name in DeclaredNames(eps[..i + 1]);
  }

  lemma DeclareOne(before: Endpoints, now: Endpoints, eps: seq<Endpoint>, i: nat, url: Url)
    requires i < |eps| && Merged(before, now, eps[..i], false, url)
    ensures Merged(before, now[eps[i].name := Declare(Lookup(now, eps[i].name), eps[i], url)], eps[..i + 1], false, url)
  {
    var ep := eps[i];
    var next := now[ep.name := Declare(Lookup(now, ep.name), ep, url)];
    NamesGrow(eps, i);
    assert eps[..i + 1][..i] == eps[..i];
    if ep.name !in DeclaredNames(eps[..i]) {
      NotDeclared(Lookup(before, ep.name), eps[..i], ep.name, url);
      assert Lookup(now, ep.name) == Lookup(before, ep.name);
    }
    forall name | name in DeclaredNames(eps[..i + 1])
      ensures Lookup(next, name) == Declared(Lookup(before, name), eps[..i + 1], name, url)
    {
    }
  }
}
