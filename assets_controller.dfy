/** The decisions AssetsController makes before it talks to the database, the
    search index or the response: which lookup `show` does, the page `index`
    asks for, who may call which action, who may download a zip, the parameter
    defaults of `update`, and the annotation toggle kept in the session. */
module AssetsController {
  import opened RubyText

  // ---------------------------------------------------------------------
  // show
  // ---------------------------------------------------------------------

  /** `Asset.find(id)` or `Asset.find_by_uuid(uuid)`. */
  datatype AssetLookup = ById(id: string) | ByUuid(uuid: string)

  const UrnPrefix := "urn:uuid:"

  /** A line `/^[\d]+$/` matches: one or more ASCII digits and nothing else. */
  predicate DigitLine(line: string) {
    |line| > 0 && forall i :: 0 <= i < |line| ==> IsDigit(line[i])
  }

  /** The lookup `show` makes for `params[:id]`. */
  function ShowLookup(id: string): (r: AssetLookup)
    ensures r.ById? <==> AnyLine(id, DigitLine)
    ensures r.ById? ==> r.id == id
    ensures r.ByUuid? ==> r.uuid == DropPrefixEveryLine(id, UrnPrefix)
  {
    if AnyLine(id, DigitLine) then ById(id) else ByUuid(DropPrefixEveryLine(id, UrnPrefix))
  }

  /** For an id on one line: digits only is a numeric lookup; anything else is a uuid
      lookup with one leading "urn:uuid:" removed. */
  lemma ShowLookupOfOneLine(id: string)
    requires '\n' !in id
    ensures DigitLine(id) ==> ShowLookup(id) == ById(id)
    ensures !DigitLine(id) ==> ShowLookup(id) == ByUuid(ReplacePrefix(id, UrnPrefix, ""))
  {
    SingleLine(id, DigitLine);
    DropPrefixSingleLine(id, UrnPrefix);
  }

  /** A URN names the asset by the uuid it carries. */
  lemma ShowLookupOfUrn(uuid: string)
    requires '\n' !in uuid
    ensures ShowLookup(UrnPrefix + uuid) == ByUuid(uuid)
  {
    var id := UrnPrefix + uuid;
    assert '\n' !in id by {
      assert id[..|UrnPrefix|] == UrnPrefix;
      forall i | 0 <= i < |id| ensures id[i] != '\n' {
        if i >= |UrnPrefix| {
          assert id[i] == uuid[i - |UrnPrefix|];
        }
      }
    }
    assert !IsDigit(id[0]);
    ShowLookupOfOneLine(id);
    assert StartsWith(id, UrnPrefix);
  }

  /** Ruby's `^` and `$` anchor at lines: an id whose last line is all digits is a
      numeric lookup, whatever comes before it. */
  lemma ShowLookupOfLaterDigitLine(before: string, digits: string)
    requires DigitLine(digits)
    ensures ShowLookup(before + "\n" + digits).ById?
  {
    assert '\n' !in digits by {
      forall i | 0 <= i < |digits| ensures digits[i] != '\n' {
        assert IsDigit(digits[i]);
      }
    }
    SplitAllConcat(before, digits, '\n');
    SplitAllWithout(digits, '\n');
    var ls := Lines(before + "\n" + digits);
    assert ls[|ls| - 1] == digits;
  }

  // ---------------------------------------------------------------------
  // index
  // ---------------------------------------------------------------------

  /** A value of the pagination options: the integer default or the raw parameter. */
  datatype PageOption = Number(n: nat) | Param(value: string)

  const PerPage: nat := 20

  /** `pageopts` of `index`: page 1 when the parameter is missing or empty, else the parameter. */
  method IndexPageOptions(page: Option<string>) returns (pageopts: map<string, PageOption>)
    ensures pageopts.Keys == {"page", "per_page"}
    ensures pageopts["per_page"] == Number(PerPage)
    ensures page.None? || page == Some("") ==> pageopts["page"] == Number(1)
    ensures page.Some? && page != Some("") ==> pageopts["page"] == Param(page.value)
  {
    pageopts := map["page" := if page.Some? then Param(page.value) else Number(1), "per_page" := Number(PerPage)];
    if pageopts["page"] == Param("") {
      pageopts := pageopts["page" := Number(1)];
    }
  }

  // ---------------------------------------------------------------------
  // authorized?
  // ---------------------------------------------------------------------

  const PublicActions: seq<string> := ["index", "show", "opensearch", "toggleannotations"]

  /** `authorized?`: the public actions for everyone, the rest only when logged in. */
  function Authorized(action: string, loggedIn: bool): (r: bool)
    ensures action in PublicActions ==> r
    ensures action !in PublicActions ==> r == loggedIn
    ensures loggedIn ==> r
  {
    action in PublicActions || loggedIn
  }

  // ---------------------------------------------------------------------
  // zip
  // ---------------------------------------------------------------------

  const MaxSearchForNonAdmin: nat := 250
  const WholeDatabaseRefusal := "Only administrators can download a zip file of the entire database."
  const SearchTooBigRefusal := "Sorry, the current search is too big to be downloaded by a non-administrator."

  /** What `zip` goes on to do: export everything, export a search, or refuse with a flash message. */
  datatype ZipDecision = ExportAll | ExportSearch(query: string) | Refuse(message: string)

  /** The zip gate; `searchCount` stands for the search index's result count, which the
      source asks only of a non-administrator with a query. */
  function ZipGate(query: Option<string>, isAdmin: bool, searchCount: string -> nat): (r: ZipDecision)
    ensures r.Refuse? <==> !isAdmin && (query.None? || searchCount(query.value) > MaxSearchForNonAdmin)
    ensures r.Refuse? ==> r.message == (if query.None? then WholeDatabaseRefusal else SearchTooBigRefusal)
    ensures r.ExportAll? <==> isAdmin && query.None?
    ensures r.ExportSearch? ==> query == Some(r.query)
  {
    if query.None? then
      if !isAdmin then Refuse(WholeDatabaseRefusal) else ExportAll
    else if !isAdmin && searchCount(query.value) > MaxSearchForNonAdmin then
      Refuse(SearchTooBigRefusal)
    else
      ExportSearch(query.value)
  }

  /** A search of exactly 250 results is still exported for a non-administrator. */
  lemma ZipAllowsExactLimit(query: string, searchCount: string -> nat)
    requires searchCount(query) == MaxSearchForNonAdmin
    ensures ZipGate(Some(query), false, searchCount) == ExportSearch(query)
  {
  }

  // ---------------------------------------------------------------------
  // update
  // ---------------------------------------------------------------------

  /** A request parameter value. */
  datatype Param = Nil | Bool(b: bool) | Str(s: string) | List(items: seq<Param>) | Hash(entries: map<string, Param>)

  /** Ruby truthiness: everything but nil and false. */
  predicate Truthy(v: Param) {
    !(v.Nil? || v == Bool(false))
  }

  /** `h[key] ||= default`: `key` keeps a truthy value and gets `default` otherwise. */
  ghost predicate OrAssigned(h: map<string, Param>, key: string, default: Param, r: map<string, Param>) {
    && key in r
    && (forall k :: k in r <==> k in h || k == key)
    && r[key] == (if key in h && Truthy(h[key]) then h[key] else default)
    && (forall k :: k in h && k != key ==> r[k] == h[k])
  }

  /** `h[key] ||= default` on a hash. */
  method OrAssign(h: map<string, Param>, key: string, default: Param) returns (r: map<string, Param>)
    ensures OrAssigned(h, key, default, r)
  {
    r := h;
    if !(key in h && Truthy(h[key])) {
      r := r[key := default];
    }
  }

  /** The keys `update` defaults in the asset hash, in the order of its `||=` lines, each
      with its empty default. */
  const AssetDefaults: seq<(string, Param)> := [
    ("identifier_attributes", Hash(map[])), ("title_attributes", Hash(map[])),
    ("subject_ids", List([])), ("description_attributes", Hash(map[])),
    ("genre_ids", List([])), ("relation_attributes", Hash(map[])),
    ("coverage_attributes", Hash(map[])), ("audience_rating_ids", List([])),
    ("audience_level_ids", List([]))]

  /** No key is defaulted twice. */
  predicate DistinctKeys(ds: seq<(string, Param)>) {
    forall i, j :: 0 <= i < j < |ds| ==> ds[i].0 != ds[j].0
  }

  lemma AssetDefaultsDistinct()
    ensures DistinctKeys(AssetDefaults)
  {
  }

  /** The defaults of a table as a map from key to default. */
  ghost function DefaultsOf(ds: seq<(string, Param)>): (m: map<string, Param>)
    ensures forall k :: k in m ==> exists j :: 0 <= j < |ds| && ds[j] == (k, m[k])
  {
    if ds == [] then map[] else DefaultsOf(ds[..|ds| - 1])[ds[|ds| - 1].0 := ds[|ds| - 1].1]
  }

  /** With distinct keys, every row of the table is in its map, with that row's default. */
  lemma {:induction false} DefaultsOfHas(ds: seq<(string, Param)>, j: nat)
    requires DistinctKeys(ds) && j < |ds|
    ensures ds[j].0 in DefaultsOf(ds) && DefaultsOf(ds)[ds[j].0] == ds[j].1
  {
    if j < |ds| - 1 {
      DefaultsOfHas(ds[..|ds| - 1], j);
    }
  }

  /** `after` is `before` with every key of `defaults` that is nil, false or missing set
      to its default, and every other key kept. */
  ghost predicate DefaultsFilled(before: map<string, Param>, after: map<string, Param>, defaults: map<string, Param>) {
    && (forall k :: k in after <==> k in before || k in defaults)
    && (forall k :: k in defaults ==> after[k] == (if k in before && Truthy(before[k]) then before[k] else defaults[k]))
    && (forall k :: k in before && k !in defaults ==> after[k] == before[k])
  }

  /** One more `||=` extends the filled defaults by its key. */
  lemma OrAssignFills(before: map<string, Param>, h: map<string, Param>, defaults: map<string, Param>, key: string, default: Param, r: map<string, Param>)
    requires DefaultsFilled(before, h, defaults)
    requires key !in defaults
    requires OrAssigned(h, key, default, r)
    ensures DefaultsFilled(before, r, defaults[key := default])
  {
  }

  /** Every default in the table is truthy (an empty hash or list). */
  lemma AssetDefaultsTruthy()
    ensures forall k :: k in DefaultsOf(AssetDefaults) ==> Truthy(DefaultsOf(AssetDefaults)[k])
  {
    var ds := AssetDefaults;
    assert forall j :: 0 <= j < |ds| ==> Truthy(ds[j].1);
  }

  /** Filling an already filled hash again with truthy defaults changes nothing. */
  lemma RefillChangesNothing(before: map<string, Param>, after: map<string, Param>, defaults: map<string, Param>)
    requires forall k :: k in defaults ==> Truthy(defaults[k])
    requires DefaultsFilled(before, after, defaults)
    ensures DefaultsFilled(after, after, defaults)
  {
  }

  /** Whether `params[:asset]` is a value the nested `[]` calls fail on (a string, list or true). */
  predicate AssetParamMalformed(params: map<string, Param>) {
    "asset" in params && Truthy(params["asset"]) && !params["asset"].Hash?
  }

  /** Every row's key is in `after`, with the value it had in `before` when that was
      truthy and the row's default otherwise. */
  predicate RowsFilled(before: map<string, Param>, after: map<string, Param>, ds: seq<(string, Param)>) {
    forall j :: 0 <= j < |ds| ==>
      ds[j].0 in after && after[ds[j].0] == (if ds[j].0 in before && Truthy(before[ds[j].0]) then before[ds[j].0] else ds[j].1)
  }

  /** A hash filled from a table with distinct keys has every row filled. */
  lemma FilledRows(before: map<string, Param>, after: map<string, Param>, ds: seq<(string, Param)>)
    requires DistinctKeys(ds) && DefaultsFilled(before, after, DefaultsOf(ds))
    ensures RowsFilled(before, after, ds)
  {
    forall j | 0 <= j < |ds|
      ensures ds[j].0 in after && after[ds[j].0] == (if ds[j].0 in before && Truthy(before[ds[j].0]) then before[ds[j].0] else ds[j].1)
    {
      DefaultsOfHas(ds, j);
    }
  }

  /** The defaults of one more row of a table with distinct keys add that row's key, which
      was not there yet. */
  lemma DefaultsOfPrefix(ds: seq<(string, Param)>, i: nat)
    requires DistinctKeys(ds) && i < |ds|
    ensures ds[i].0 !in DefaultsOf(ds[..i])
    ensures DefaultsOf(ds[..i + 1]) == DefaultsOf(ds[..i])[ds[i].0 := ds[i].1]
  {
    assert ds[..i + 1][..i] == ds[..i];
  }

  /** One `||=` per row of a table of defaults, in table order. */
  method FillDefaults(asset: map<string, Param>, ds: seq<(string, Param)>) returns (filled: map<string, Param>)
    requires DistinctKeys(ds)
    ensures DefaultsFilled(asset, filled, DefaultsOf(ds))
    ensures RowsFilled(asset, filled, ds)
  {
    filled := asset;
    var i := 0;
    while i < |ds|
      invariant 0 <= i <= |ds|
      invariant DefaultsFilled(asset, filled, DefaultsOf(ds[..i]))
    {
      var (key, default) := ds[i];
      DefaultsOfPrefix(ds, i);
      var next := OrAssign(filled, key, default);
      OrAssignFills(asset, filled, DefaultsOf(ds[..i]), key, default, next);
      filled, i := next, i + 1;
    }
    assert ds[..i] == ds;
    FilledRows(asset, filled, ds);
  }

  /** The asset hash `update` starts from: `params[:asset]` when set, else `{}`. */
  function OriginalAsset(params: map<string, Param>): map<string, Param>
    requires !AssetParamMalformed(params)
  {
    if "asset" in params && Truthy(params["asset"]) then params["asset"].entries else map[]
  }

  /** Putting the filled asset hash back keeps every other parameter. */
  lemma ReplaceAsset(params: map<string, Param>, p: map<string, Param>, asset: map<string, Param>)
    requires OrAssigned(params, "asset", Hash(map[]), p)
    ensures p["asset" := Hash(asset)].Keys == params.Keys + {"asset"}
    ensures forall k :: k in params && k != "asset" ==> p["asset" := Hash(asset)][k] == params[k]
  {
  }

  /** The parameter defaults of `update`: `params[:asset] ||= {}`, then one `||=` per row of
      `AssetDefaults`, in order.  None stands for the exception the nested `[]` raises when
      `params[:asset]` is not a hash. */
  method UpdateParams(params: map<string, Param>) returns (r: Option<map<string, Param>>)
    ensures r.None? <==> AssetParamMalformed(params)
    ensures r.Some? ==> r.value.Keys == params.Keys + {"asset"}
    ensures r.Some? ==> forall k :: k in params && k != "asset" ==> r.value[k] == params[k]
    ensures r.Some? ==> r.value["asset"].Hash?
    ensures r.Some? ==> DefaultsFilled(OriginalAsset(params), r.value["asset"].entries, DefaultsOf(AssetDefaults))
    ensures r.Some? ==> RowsFilled(OriginalAsset(params), r.value["asset"].entries, AssetDefaults)
  {
    var p := OrAssign(params, "asset", Hash(map[]));
    if !p["asset"].Hash? {
      return None;
    }
    var before := p["asset"].entries;
    assert before == OriginalAsset(params);
    AssetDefaultsDistinct();
    var asset := FillDefaults(before, AssetDefaults);
    var q := p["asset" := Hash(asset)];
    ReplaceAsset(params, p, asset);
    assert q["asset"].entries == asset;
    return Some(q);
  }

  // ---------------------------------------------------------------------
  // toggleannotations
  // ---------------------------------------------------------------------

  /** Ruby truthiness of the session flag: nil and false are both unset. */
  predicate FlagSet(flag: Option<bool>) {
    flag == Some(true)
  }

  /** `session[:hide_annotations]` and the listing's annotation visibility. */
  class Session {
    var hideAnnotations: Option<bool>

    constructor (hideAnnotations: Option<bool>)
      ensures this.hideAnnotations == hideAnnotations
    {
      this.hideAnnotations := hideAnnotations;
    }

    /** `toggleannotations`: negate the flag and show annotations exactly when it is now unset. */
    method ToggleAnnotations() returns (visible: bool)
      modifies this
      ensures hideAnnotations == Some(!FlagSet(old(hideAnnotations)))
      ensures visible == !FlagSet(hideAnnotations)
      ensures visible == FlagSet(old(hideAnnotations))
    {
      hideAnnotations := Some(!FlagSet(hideAnnotations));
      visible := !FlagSet(hideAnnotations);
    }
  }

  /** Toggling twice restores a flag that was set to true or false, and the
      truthiness of one that was never set. */
  method ToggleTwice(s: Session) returns (first: bool, second: bool)
    modifies s
    ensures old(s.hideAnnotations).Some? ==> s.hideAnnotations == old(s.hideAnnotations)
    ensures FlagSet(s.hideAnnotations) == FlagSet(old(s.hideAnnotations))
    ensures first != second
  {
    ghost var flag := s.hideAnnotations;
    first := s.ToggleAnnotations();
    second := s.ToggleAnnotations();
    assert s.hideAnnotations == Some(FlagSet(flag));
    match flag {
      case None =>
      case Some(b) => assert FlagSet(flag) == b;
    }
  }
}
