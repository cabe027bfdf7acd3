/** Validation of the operator catalog: identifiers, unique maps, closed duplicate-free route
    chains, token caps. */
module Catalog {
  import opened Prelude

  datatype Category =
    | EmptyIdentifier
    | UnsupportedVersion
    | UnsupportedVendor
    | InvalidLimit
    | InvalidPrice
    | MissingDefaultRoute
    | UnknownTargetReference
    | DuplicateChainTarget
    | DuplicateTarget
    | DuplicateRoute

  datatype Result<+T> = Ok(value: T) | Err(category: Category)

  /** A 64-bit float, as far as validation looks at it. */
  datatype Float = NotANumber | Infinite | Finite(value: real)

  datatype RawTarget = RawTarget(
    vendor: Option<string>, model: string, maxOutputTokens: nat, inputPrice: Float, outputPrice: Float)

  datatype Route = Route(primary: string, fallbacks: seq<string>)

  /** A catalog document as written, with its maps still lists of entries. */
  datatype RawCatalog = RawCatalog(
    version: nat, defaultRoute: string, targets: seq<(string, RawTarget)>, routes: seq<(string, Route)>)

  datatype Target = Target(vendor: string, model: string, maxOutputTokens: nat, inputPrice: real, outputPrice: real)

  datatype Catalog = Catalog(defaultRoute: string, targets: map<string, Target>, routes: map<string, Route>)

  const OPENAI := "openai"
  const MIN_OUTPUT_TOKENS: nat := 1
  const MAX_OUTPUT_TOKENS: nat := 1_000_000
  const MAX_PRICE_PER_MILLION: real := 1_000_000.0

  // ----- identifiers -------------------------------------------------------------------

  /** The Unicode White_Space property, which `str::trim` strips. */
  predicate IsWhitespace(c: char) {
    || '\U{0009}' <= c <= '\U{000D}' || c == ' ' || c == '\U{0085}' || c == '\U{00A0}' || c == '\U{1680}'
    || '\U{2000}' <= c <= '\U{200A}' || c == '\U{2028}' || c == '\U{2029}' || c == '\U{202F}' || c == '\U{205F}' || c == '\U{3000}'
  }

  function TrimStart(s: string): string {
    if s != "" && IsWhitespace(s[0]) then TrimStart(s[1..]) else s
  }

  function TrimEnd(s: string): string {
    if s != "" && IsWhitespace(s[|s| - 1]) then TrimEnd(s[..|s| - 1]) else s
  }

  function Trim(s: string): string {
    TrimEnd(TrimStart(s))
  }

  /** Not empty and not surrounded by white space. */
  predicate IsIdentifier(s: string) {
    s != "" && !IsWhitespace(s[0]) && !IsWhitespace(s[|s| - 1])
  }

  lemma {:induction false} TrimEndShortens(s: string)
    ensures TrimEnd(s) == s || |TrimEnd(s)| < |s|
    ensures TrimEnd(s) == s <==> s == "" || !IsWhitespace(s[|s| - 1])
  {
    if s != "" && IsWhitespace(s[|s| - 1]) {
      TrimEndShortens(s[..|s| - 1]);
    }
  }

  lemma {:induction false} TrimStartShortens(s: string)
    ensures TrimStart(s) == s || |TrimStart(s)| < |s|
    ensures TrimStart(s) == s <==> s == "" || !IsWhitespace(s[0])
  {
    if s != "" && IsWhitespace(s[0]) {
      TrimStartShortens(s[1..]);
    }
  }

  /** The code's test, not empty and unchanged by trimming, accepts exactly the identifiers. */
  lemma {:induction false} TrimmedExactly(s: string)
    ensures s != "" && Trim(s) == s <==> IsIdentifier(s)
  {
    TrimStartShortens(s);
    TrimEndShortens(TrimStart(s));
    TrimEndShortens(s);
  }

  method RequireIdentifier(value: string) returns (result: Result<string>)
    ensures result == if IsIdentifier(value) then Ok(value) else Err(EmptyIdentifier)
  {
    TrimmedExactly(value);
    if value == "" || Trim(value) != value {
      return Err(EmptyIdentifier);
    }
    return Ok(value);
  }

  function ParseVendor(raw: Option<string>): (vendor: Result<string>)
    ensures vendor == Ok(OPENAI) <==> raw.None? || raw.value == OPENAI
    ensures vendor.Err? ==> vendor.category == UnsupportedVendor
  {
    match raw
    case None => Ok(OPENAI)
    case Some(value) => if value == OPENAI then Ok(OPENAI) else Err(UnsupportedVendor)
  }

  /** White space is these 25 characters and no other. */
  lemma {:induction false} WhitespaceSpelled(c: char)
    ensures IsWhitespace(c) <==>
              c in {'\U{0009}', '\U{000A}', '\U{000B}', '\U{000C}', '\U{000D}', '\U{0020}', '\U{0085}', '\U{00A0}', '\U{1680}',
                    '\U{2000}', '\U{2001}', '\U{2002}', '\U{2003}', '\U{2004}', '\U{2005}', '\U{2006}', '\U{2007}', '\U{2008}',
                    '\U{2009}', '\U{200A}', '\U{2028}', '\U{2029}', '\U{202F}', '\U{205F}', '\U{3000}'}
  {
    if IsWhitespace(c) {
      assert 0x9 <= c as int <= 0xD || c as int == 0x20 || c as int == 0x85 || c as int == 0xA0 || c as int == 0x1680
          || 0x2000 <= c as int <= 0x200A || c as int == 0x2028 || c as int == 0x2029 || c as int == 0x202F || c as int == 0x205F || c as int == 0x3000;
    }
  }

  // ----- maps --------------------------------------------------------------------------

  predicate DistinctKeys<T>(entries: seq<(string, T)>) {
    forall i, j :: 0 <= i < j < |entries| ==> entries[i].0 != entries[j].0
  }

  /** The map holds exactly the entries. */
  ghost predicate HoldsEntries<T(!new)>(m: map<string, T>, entries: seq<(string, T)>) {
    && (forall i :: 0 <= i < |entries| ==> entries[i].0 in m && m[entries[i].0] == entries[i].1)
    && (forall key :: key in m ==> exists i :: 0 <= i < |entries| && entries[i].0 == key)
  }

  /** The unique-map visitor: a repeated key is an error. */
  method UniqueMap<T(!new)>(entries: seq<(string, T)>) returns (result: Option<map<string, T>>)
    ensures result.Some? <==> DistinctKeys(entries)
    ensures result.Some? ==> HoldsEntries(result.value, entries)
  {
    var m: map<string, T> := map[];
    var i := 0;
    while i < |entries|
      invariant i <= |entries|
      invariant DistinctKeys(entries[..i]) && HoldsEntries(m, entries[..i])
    {
      var key, value := entries[i].0, entries[i].1;
      if key in m {
        var j :| 0 <= j < i && entries[..i][j].0 == key;
        assert entries[j].0 == entries[i].0;
        return None;
      }
      EntryAdded(m, entries, i);
      m := m[key := value];
      i := i + 1;
    }
    assert entries[..i] == entries;
    return Some(m);
  }

  lemma EntryAdded<T(!new)>(m: map<string, T>, entries: seq<(string, T)>, i: nat)
    requires i < |entries| && entries[i].0 !in m && DistinctKeys(entries[..i]) && HoldsEntries(m, entries[..i])
    ensures DistinctKeys(entries[..i + 1]) && HoldsEntries(m[entries[i].0 := entries[i].1], entries[..i + 1])
  {
    var before, after := entries[..i], entries[..i + 1];
    assert after == before + [entries[i]];
    forall key | key in m
      ensures exists k :: 0 <= k < |after| && after[k].0 == key
    {
      var k :| 0 <= k < |before| && before[k].0 == key;
      assert after[k].0 == key;
    }
    assert after[i].0 == entries[i].0;
  }

  // ----- routes ------------------------------------------------------------------------

  predicate Distinct(ids: seq<string>) {
    forall i, j :: 0 <= i < j < |ids| ==> ids[i] != ids[j]
  }

  function Targets(route: Route): seq<string> {
    [route.primary] + route.fallbacks
  }

  /** Every target of the chain is an identifier of a configured target, and none occurs twice. */
  ghost predicate ValidRoute(targets: set<string>, route: Route) {
    && (forall i :: 0 <= i < |Targets(route)| ==> IsIdentifier(Targets(route)[i]) && Targets(route)[i] in targets)
    && Distinct(Targets(route))
  }

  /** A defect of this category is present in the route. */
  ghost predicate FaultyRoute(targets: set<string>, route: Route, category: Category) {
    match category
    case EmptyIdentifier => exists i :: 0 <= i < |Targets(route)| && !IsIdentifier(Targets(route)[i])
    case UnknownTargetReference => exists i :: 0 <= i < |Targets(route)| && Targets(route)[i] !in targets
    case DuplicateChainTarget => !Distinct(Targets(route))
    case _ => false
  }

  method ValidateRoute(targets: map<string, Target>, route: Route) returns (result: Result<Route>)
    ensures result.Ok? <==> ValidRoute(targets.Keys, route)
    ensures result.Ok? ==> result.value == route
    ensures result.Err? ==> FaultyRoute(targets.Keys, route, result.category)
  {
    ghost var chain := Targets(route);
    assert chain[0] == route.primary;
    var primary := RequireIdentifier(route.primary);
    if primary.Err? {
      return Err(primary.category);
    }
    if primary.value !in targets {
      return Err(UnknownTargetReference);
    }
    var seen := [primary.value];
    var fallbacks := [];
    var k := 0;
    while k < |route.fallbacks|
      invariant k <= |route.fallbacks| && seen == chain[..k + 1] && fallbacks == route.fallbacks[..k]
      invariant forall i :: 0 <= i <= k ==> IsIdentifier(chain[i]) && chain[i] in targets
      invariant Distinct(seen)
    {
      assert chain[k + 1] == route.fallbacks[k];
      var fallback := RequireIdentifier(route.fallbacks[k]);
      if fallback.Err? {
        return Err(fallback.category);
      }
      if fallback.value !in targets {
        return Err(UnknownTargetReference);
      }
      if fallback.value in seen {
        var i :| 0 <= i < |seen| && seen[i] == fallback.value;
        assert chain[i] == chain[k + 1];
        return Err(DuplicateChainTarget);
      }
      assert chain[..k + 2] == seen + [fallback.value];
      seen := seen + [fallback.value];
      fallbacks := fallbacks + [fallback.value];
      k := k + 1;
    }
    assert chain[..k + 1] == chain;
    return Ok(Route(primary.value, fallbacks));
  }

  // ----- the catalog -------------------------------------------------------------------

  predicate AcceptablePrice(price: Float) {
    price.Finite? && 0.0 <= price.value <= MAX_PRICE_PER_MILLION
  }

  predicate AcceptableTarget(raw: RawTarget) {
    && (raw.vendor.None? || raw.vendor.value == OPENAI)
    && IsIdentifier(raw.model)
    && MIN_OUTPUT_TOKENS <= raw.maxOutputTokens <= MAX_OUTPUT_TOKENS
    && AcceptablePrice(raw.inputPrice) && AcceptablePrice(raw.outputPrice)
  }

  function TargetOf(raw: RawTarget): Target
    requires AcceptableTarget(raw)
  {
    Target(OPENAI, raw.model, raw.maxOutputTokens, raw.inputPrice.value, raw.outputPrice.value)
  }

  ghost predicate FaultyTarget(id: string, raw: RawTarget, category: Category) {
    match category
    case EmptyIdentifier => !IsIdentifier(id) || !IsIdentifier(raw.model)
    case UnsupportedVendor => raw.vendor.Some? && raw.vendor.value != OPENAI
    case InvalidLimit => !(MIN_OUTPUT_TOKENS <= raw.maxOutputTokens <= MAX_OUTPUT_TOKENS)
    case InvalidPrice => !AcceptablePrice(raw.inputPrice) || !AcceptablePrice(raw.outputPrice)
    case _ => false
  }

  /** Finite and within the bound, on both ends inclusive. */
  method ValidatePrice(price: Float) returns (result: Result<real>)
    ensures result == if AcceptablePrice(price) then Ok(price.value) else Err(InvalidPrice)
  {
    if !price.Finite? || !(0.0 <= price.value <= MAX_PRICE_PER_MILLION) {
      return Err(InvalidPrice);
    }
    return Ok(price.value);
  }

  method ValidateTarget(id: string, raw: RawTarget) returns (result: Result<Target>)
    ensures result.Ok? <==> IsIdentifier(id) && AcceptableTarget(raw)
    ensures result.Ok? ==> result.value == TargetOf(raw)
    ensures result.Err? ==> FaultyTarget(id, raw, result.category)
  {
    var key := RequireIdentifier(id);
    if key.Err? {
      return Err(key.category);
    }
    var vendor := ParseVendor(raw.vendor);
    if vendor.Err? {
      return Err(vendor.category);
    }
    var model := RequireIdentifier(raw.model);
    if model.Err? {
      return Err(model.category);
    }
    if raw.maxOutputTokens < MIN_OUTPUT_TOKENS || raw.maxOutputTokens > MAX_OUTPUT_TOKENS {
      return Err(InvalidLimit);
    }
    var inputPrice := ValidatePrice(raw.inputPrice);
    if inputPrice.Err? {
      return Err(inputPrice.category);
    }
    var outputPrice := ValidatePrice(raw.outputPrice);
    if outputPrice.Err? {
      return Err(outputPrice.category);
    }
    return Ok(Target(vendor.value, model.value, raw.maxOutputTokens, inputPrice.value, outputPrice.value));
  }

  predicate AcceptableTargets(entries: seq<(string, RawTarget)>) {
    && entries != []
    && forall i :: 0 <= i < |entries| ==> IsIdentifier(entries[i].0) && AcceptableTarget(entries[i].1)
  }

  /** The keys of a list of entries. */
  function Keys<T(!new)>(entries: seq<(string, T)>): (keys: set<string>)
    ensures forall key :: key in keys <==> exists i :: 0 <= i < |entries| && entries[i].0 == key
  {
    set i | 0 <= i < |entries| :: entries[i].0
  }

  ghost predicate AcceptableRoutes(targets: set<string>, entries: seq<(string, Route)>) {
    && entries != []
    && forall i :: 0 <= i < |entries| ==> IsIdentifier(entries[i].0) && ValidRoute(targets, entries[i].1)
  }

  /** Exactly what a catalog document must satisfy. */
  ghost predicate Acceptable(raw: RawCatalog) {
    && raw.version == 1
    && DistinctKeys(raw.targets) && DistinctKeys(raw.routes)
    && AcceptableTargets(raw.targets)
    && AcceptableRoutes(Keys(raw.targets), raw.routes)
    && raw.defaultRoute in Keys(raw.routes)
  }

  /** What a validated catalog guarantees to routing. */
  ghost predicate ValidCatalog(c: Catalog) {
    && c.defaultRoute in c.routes
    && (forall id :: id in c.routes ==> IsIdentifier(id) && ValidRoute(c.targets.Keys, c.routes[id]))
    && (forall id :: id in c.targets ==>
          IsIdentifier(id) && c.targets[id].vendor == OPENAI && MIN_OUTPUT_TOKENS <= c.targets[id].maxOutputTokens <= MAX_OUTPUT_TOKENS)
  }

  /** The catalog says what the document says. */
  ghost predicate Represents(c: Catalog, raw: RawCatalog) {
    && c.defaultRoute == raw.defaultRoute
    && c.targets.Keys == Keys(raw.targets) && c.routes.Keys == Keys(raw.routes)
    && (forall i :: 0 <= i < |raw.targets| ==> raw.targets[i].0 in c.targets && AcceptableTarget(raw.targets[i].1) && c.targets[raw.targets[i].0] == TargetOf(raw.targets[i].1))
    && (forall i :: 0 <= i < |raw.routes| ==> raw.routes[i].0 in c.routes && c.routes[raw.routes[i].0] == raw.routes[i].1)
  }

  /** Some entry of the map has a defect of the category. */
  ghost predicate FaultyEntry(raw: RawCatalog, category: Category) {
    || (exists i :: 0 <= i < |raw.targets| && FaultyTarget(raw.targets[i].0, raw.targets[i].1, category))
    || (exists i :: 0 <= i < |raw.routes| && FaultyRoute(Keys(raw.targets), raw.routes[i].1, category))
    || (category == EmptyIdentifier && exists i :: 0 <= i < |raw.routes| && !IsIdentifier(raw.routes[i].0))
  }

  /** A defect of the reported category is present in the document. */
  ghost predicate Faulty(raw: RawCatalog, category: Category) {
    || FaultyEntry(raw, category)
    || match category
       case UnsupportedVersion => raw.version != 1
       case DuplicateTarget => !DistinctKeys(raw.targets)
       case DuplicateRoute => !DistinctKeys(raw.routes)
       case EmptyIdentifier => raw.targets == [] || !IsIdentifier(raw.defaultRoute)
       case MissingDefaultRoute => raw.routes == [] || raw.defaultRoute !in Keys(raw.routes)
       case _ => false
  }

  /** Validates the targets in the map's own, arbitrary order. */
  method ValidateTargets(raw: map<string, RawTarget>) returns (result: Result<map<string, Target>>)
    ensures result.Ok? <==> forall id :: id in raw ==> IsIdentifier(id) && AcceptableTarget(raw[id])
    ensures result.Ok? ==> result.value.Keys == raw.Keys && forall id :: id in raw ==> AcceptableTarget(raw[id]) && result.value[id] == TargetOf(raw[id])
    ensures result.Err? ==> exists id :: id in raw && FaultyTarget(id, raw[id], result.category)
  {
    var targets: map<string, Target> := map[];
    var rest := raw.Keys;
    while rest != {}
      invariant rest <= raw.Keys && targets.Keys == raw.Keys - rest
      invariant forall id :: id in targets ==> IsIdentifier(id) && AcceptableTarget(raw[id]) && targets[id] == TargetOf(raw[id])
      decreases |rest|
    {
      var id :| id in rest;
      var target := ValidateTarget(id, raw[id]);
      if target.Err? {
        return Err(target.category);
      }
      targets := targets[id := target.value];
      rest := rest - {id};
    }
    return Ok(targets);
  }

  method ValidateRoutes(targets: map<string, Target>, raw: map<string, Route>) returns (result: Result<map<string, Route>>)
    ensures result.Ok? <==> forall id :: id in raw ==> IsIdentifier(id) && ValidRoute(targets.Keys, raw[id])
    ensures result.Ok? ==> result.value == raw
    ensures result.Err? ==>
              exists id :: id in raw && (FaultyRoute(targets.Keys, raw[id], result.category) || (!IsIdentifier(id) && result.category == EmptyIdentifier))
  {
    var routes: map<string, Route> := map[];
    var rest := raw.Keys;
    while rest != {}
      invariant rest <= raw.Keys && routes.Keys == raw.Keys - rest
      invariant forall id :: id in routes ==> IsIdentifier(id) && ValidRoute(targets.Keys, raw[id]) && routes[id] == raw[id]
      decreases |rest|
    {
      var id :| id in rest;
      var key := RequireIdentifier(id);
      if key.Err? {
        return Err(key.category);
      }
      var route := ValidateRoute(targets, raw[id]);
      if route.Err? {
        return Err(route.category);
      }
      routes := routes[id := route.value];
      rest := rest - {id};
    }
    return Ok(routes);
  }

  lemma EntryOf<T(!new)>(m: map<string, T>, entries: seq<(string, T)>, key: string) returns (i: nat)
    requires HoldsEntries(m, entries) && key in m
    ensures i < |entries| && entries[i].0 == key && entries[i].1 == m[key]
  {
    i :| 0 <= i < |entries| && entries[i].0 == key;
  }

  /** Each name of the chain is that of an entry, and none occurs twice. */
  ghost predicate ClosedChain(targets: seq<(string, RawTarget)>, chain: seq<string>) {
    && (forall k :: 0 <= k < |chain| ==> exists n :: 0 <= n < |targets| && targets[n].0 == chain[k])
    && (forall k, l :: 0 <= k < l < |chain| ==> chain[k] != chain[l])
  }

  lemma RouteSpelled(targets: seq<(string, RawTarget)>, route: Route)
    requires forall i :: 0 <= i < |targets| ==> IsIdentifier(targets[i].0)
    ensures ValidRoute(Keys(targets), route) <==> ClosedChain(targets, [route.primary] + route.fallbacks)
  {
    hide IsIdentifier;
    var chain, keys := [route.primary] + route.fallbacks, Keys(targets);
    assert Targets(route) == chain;
    forall k | 0 <= k < |chain|
      ensures chain[k] in keys <==> exists n :: 0 <= n < |targets| && targets[n].0 == chain[k]
      ensures chain[k] in keys ==> IsIdentifier(chain[k])
    {
      if chain[k] in keys {
        var n :| 0 <= n < |targets| && targets[n].0 == chain[k];
        assert IsIdentifier(targets[n].0);
      }
    }
    assert (forall k :: 0 <= k < |chain| ==> chain[k] in keys) <==> forall k :: 0 <= k < |chain| ==> exists n :: 0 <= n < |targets| && targets[n].0 == chain[k];
  }

  /** Acceptability over fields. */
  lemma {:induction false} AcceptableSpelled(raw: RawCatalog)
    ensures Acceptable(raw) <==>
              && raw.version == 1 && raw.targets != [] && raw.routes != []
              && (forall i, j :: 0 <= i < j < |raw.targets| ==> raw.targets[i].0 != raw.targets[j].0)
              && (forall i, j :: 0 <= i < j < |raw.routes| ==> raw.routes[i].0 != raw.routes[j].0)
              && (forall i :: 0 <= i < |raw.targets| ==>
                    && IsIdentifier(raw.targets[i].0)
                    && var t := raw.targets[i].1;
                       && (t.vendor.Some? ==> t.vendor.value == "openai") && IsIdentifier(t.model)
                       && 1 <= t.maxOutputTokens <= 1_000_000
                       && t.inputPrice.Finite? && 0.0 <= t.inputPrice.value <= 1_000_000.0
                       && t.outputPrice.Finite? && 0.0 <= t.outputPrice.value <= 1_000_000.0)
              && (forall i :: 0 <= i < |raw.routes| ==>
                    && IsIdentifier(raw.routes[i].0)
                    && ClosedChain(raw.targets, [raw.routes[i].1.primary] + raw.routes[i].1.fallbacks))
              && (exists i :: 0 <= i < |raw.routes| && raw.routes[i].0 == raw.defaultRoute)
  {
    if forall i :: 0 <= i < |raw.targets| ==> IsIdentifier(raw.targets[i].0) {
      forall i | 0 <= i < |raw.routes|
        ensures ValidRoute(Keys(raw.targets), raw.routes[i].1) <==> ClosedChain(raw.targets, [raw.routes[i].1.primary] + raw.routes[i].1.fallbacks)
      {
        RouteSpelled(raw.targets, raw.routes[i].1);
      }
    }
    hide ValidRoute, IsIdentifier;
  }

  /** The result over fields: what the document says, target by target. */
  lemma {:induction false} RepresentsSpelled(c: Catalog, raw: RawCatalog, i: nat)
    requires Represents(c, raw) && i < |raw.targets|
    ensures raw.targets[i].0 in c.targets
    ensures var t, from := c.targets[raw.targets[i].0], raw.targets[i].1;
            && t.vendor == "openai" && t.model == from.model && t.maxOutputTokens == from.maxOutputTokens
            && from.inputPrice == Finite(t.inputPrice) && from.outputPrice == Finite(t.outputPrice)
  {
  }

  /** Acceptability in terms of the unique maps. */
  lemma AcceptableByMaps(raw: RawCatalog, targets: map<string, RawTarget>, routes: map<string, Route>)
    requires DistinctKeys(raw.targets) && HoldsEntries(targets, raw.targets)
    requires DistinctKeys(raw.routes) && HoldsEntries(routes, raw.routes)
    ensures targets.Keys == Keys(raw.targets) && routes.Keys == Keys(raw.routes)
    ensures (targets == map[] <==> raw.targets == []) && (routes == map[] <==> raw.routes == [])
    ensures AcceptableTargets(raw.targets) <==> targets != map[] && forall id :: id in targets ==> IsIdentifier(id) && AcceptableTarget(targets[id])
    ensures AcceptableRoutes(targets.Keys, raw.routes) <==>
            routes != map[] && forall id :: id in routes ==> IsIdentifier(id) && ValidRoute(targets.Keys, routes[id])
  {
    hide AcceptableTarget, ValidRoute, IsIdentifier;
    assert raw.targets != [] ==> raw.targets[0].0 in targets;
    assert raw.routes != [] ==> raw.routes[0].0 in routes;
  }

  /** A defect found in a map entry is one of the document. */
  lemma FaultsAreEntries(raw: RawCatalog, targets: map<string, RawTarget>, routes: map<string, Route>, category: Category)
    requires HoldsEntries(targets, raw.targets) && HoldsEntries(routes, raw.routes)
    requires || (exists id :: id in targets && FaultyTarget(id, targets[id], category))
             || (exists id :: id in routes && (FaultyRoute(Keys(raw.targets), routes[id], category) || (!IsIdentifier(id) && category == EmptyIdentifier)))
    ensures Faulty(raw, category)
  {
    hide FaultyTarget, FaultyRoute, IsIdentifier;
    if id :| id in targets && FaultyTarget(id, targets[id], category) {
      var i := EntryOf(targets, raw.targets, id);
    } else {
      var id :| id in routes && (FaultyRoute(Keys(raw.targets), routes[id], category) || (!IsIdentifier(id) && category == EmptyIdentifier));
      var i := EntryOf(routes, raw.routes, id);
    }
  }

  lemma ParsedCatalog(raw: RawCatalog, rawTargets: map<string, RawTarget>, routes: map<string, Route>, targets: map<string, Target>)
    requires HoldsEntries(rawTargets, raw.targets) && HoldsEntries(routes, raw.routes)
    requires forall id :: id in rawTargets ==> IsIdentifier(id) && AcceptableTarget(rawTargets[id])
    requires targets.Keys == rawTargets.Keys && forall id :: id in rawTargets ==> targets[id] == TargetOf(rawTargets[id])
    requires forall id :: id in routes ==> IsIdentifier(id) && ValidRoute(targets.Keys, routes[id])
    requires raw.defaultRoute in routes && Keys(raw.targets) == rawTargets.Keys && Keys(raw.routes) == routes.Keys
    ensures var c := Catalog(raw.defaultRoute, targets, routes);
            ValidCatalog(c) && Represents(c, raw)
  {
    hide ValidRoute, IsIdentifier;
  }

  method ParseCatalog(raw: RawCatalog) returns (result: Result<Catalog>)
    ensures result.Ok? <==> Acceptable(raw)
    ensures result.Ok? ==> ValidCatalog(result.value) && Represents(result.value, raw)
    ensures result.Err? ==> Faulty(raw, result.category)
  {
    hide AcceptableTargets, AcceptableRoutes, AcceptableTarget, ValidRoute, FaultyRoute, FaultyTarget, FaultyEntry;
    hide DistinctKeys, HoldsEntries, ValidCatalog, Represents, Keys, IsIdentifier;
    var rawTargets := UniqueMap(raw.targets);
    if rawTargets.None? {
      return Err(DuplicateTarget);
    }
    var rawRoutes := UniqueMap(raw.routes);
    if rawRoutes.None? {
      return Err(DuplicateRoute);
    }
    AcceptableByMaps(raw, rawTargets.value, rawRoutes.value);
    if raw.version != 1 {
      return Err(UnsupportedVersion);
    }
    var targets := ValidateTargets(rawTargets.value);
    if targets.Err? {
      FaultsAreEntries(raw, rawTargets.value, rawRoutes.value, targets.category);
      return Err(targets.category);
    }
    assert targets.value.Keys == rawTargets.value.Keys;
    if targets.value == map[] {
      assert rawTargets.value.Keys == {};
      return Err(EmptyIdentifier);
    }
    var routes := ValidateRoutes(targets.value, rawRoutes.value);
    if routes.Err? {
      FaultsAreEntries(raw, rawTargets.value, rawRoutes.value, routes.category);
      return Err(routes.category);
    }
    if routes.value == map[] {
      return Err(MissingDefaultRoute);
    }
    var defaultRoute := RequireIdentifier(raw.defaultRoute);
    if defaultRoute.Err? {
      return Err(defaultRoute.category);
    }
    if defaultRoute.value !in routes.value {
      return Err(MissingDefaultRoute);
    }
    ParsedCatalog(raw, rawTargets.value, routes.value, targets.value);
    return Ok(Catalog(defaultRoute.value, targets.value, routes.value));
  }
}
