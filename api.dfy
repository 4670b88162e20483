/** The canned-food API client (lib/api.ts): the query string of the list
    request, how each call turns a response into a value or an error, and
    image-reference resolution. `API_BASE_URL` comes from lib/utils, which is
    not part of this model, so it is the parameter `apiBase`. */
module Api {
  import opened Wrappers
  import opened FoodTypes
  import opened Http
  import opened JsStrings

  /** `QueryParams`; `signal` identifies the AbortSignal handed to `fetch`. */
  datatype QueryParams = QueryParams(
    search: Option<string>,
    brandName: Option<string>,
    minPhosphorusPer100kcal: Option<real>,
    maxPhosphorusPer100kcal: Option<real>,
    page: Option<int>,
    limit: Option<int>,
    signal: Option<nat>)

  /** A serialised parameter value: a string as given, or a number (its
      decimal text, `toString()`, is not modelled). */
  datatype ParamValue = Str(s: string) | Num(x: real)

  /** The parameters the list request may carry, in the order the client
      sets them. */
  datatype ParamName = Search | BrandName | MinPhosphorus | MaxPhosphorus | Page | Limit {
    /** Position in the order of the `set` calls. */
    function Rank(): nat {
      match this
      case Search => 0
      case BrandName => 1
      case MinPhosphorus => 2
      case MaxPhosphorus => 3
      case Page => 4
      case Limit => 5
    }
  }

  /** The name-value list of a `URLSearchParams`, in order. */
  type SearchParams = seq<(ParamName, ParamValue)>

  predicate HasKey(ps: SearchParams, k: ParamName) {
    exists i :: 0 <= i < |ps| && ps[i].0 == k
  }

  /** `searchParams.get(k)`: the value of the first pair named `k`. */
  function Lookup(ps: SearchParams, k: ParamName): (v: Option<ParamValue>)
    ensures v.Some? <==> HasKey(ps, k)
  {
    if ps == [] then None
    else if ps[0].0 == k then Some(ps[0].1)
    else
      assert forall i :: 1 <= i < |ps| ==> ps[i] == ps[1..][i - 1];
      Lookup(ps[1..], k)
  }

  /** Every pair named `k` dropped. */
  function RemoveKey(ps: SearchParams, k: ParamName): (r: SearchParams)
    ensures !HasKey(r, k)
  {
    if ps == [] then []
    else if ps[0].0 == k then RemoveKey(ps[1..], k)
    else [ps[0]] + RemoveKey(ps[1..], k)
  }

  /** `searchParams.set(k, v)` (WHATWG URL Standard): the first pair named
      `k` gets value `v` and the others are removed; without such a pair,
      `(k, v)` is appended. */
  function SetParam(ps: SearchParams, k: ParamName, v: ParamValue): SearchParams {
    if ps == [] then [(k, v)]
    else if ps[0].0 == k then [(k, v)] + RemoveKey(ps[1..], k)
    else [ps[0]] + SetParam(ps[1..], k, v)
  }

  /** Setting a name that is not yet present appends it. */
  lemma {:induction false} SetParamAppends(ps: SearchParams, k: ParamName, v: ParamValue)
    requires !HasKey(ps, k)
    ensures SetParam(ps, k, v) == ps + [(k, v)]
  {
    if ps != [] {
      assert ps[0].0 != k;
      assert !HasKey(ps[1..], k) by {
        forall i | 0 <= i < |ps[1..]| ensures ps[1..][i].0 != k {
          assert ps[1..][i] == ps[i + 1];
        }
      }
      SetParamAppends(ps[1..], k, v);
      assert [ps[0]] + (ps[1..] + [(k, v)]) == ps + [(k, v)];
    }
  }

  /** After a set, the name has exactly the new value. */
  lemma {:induction false} SetParamLookup(ps: SearchParams, k: ParamName, v: ParamValue)
    ensures Lookup(SetParam(ps, k, v), k) == Some(v)
  {
    if ps != [] && ps[0].0 != k {
      SetParamLookup(ps[1..], k, v);
      var r := SetParam(ps[1..], k, v);
      assert ([ps[0]] + r)[1..] == r;
    }
  }

  /** A non-empty string is truthy in JavaScript. */
  predicate TruthyString(s: Option<string>) {
    s.Some? && s.value != ""
  }

  /** A number other than 0 is truthy (NaN is not modelled). */
  predicate TruthyNumber(n: Option<int>) {
    n.Some? && n.value != 0
  }

  /** One optional pair: present when its guard holds. */
  function Entry(present: bool, k: ParamName, v: ParamValue): SearchParams {
    if present then [(k, v)] else []
  }

  /** The query string `getCannedFoods(params)` sends: the guarded entries,
      in the order of the `set` calls. */
  function ExpectedParams(q: QueryParams): SearchParams {
    Entry(TruthyString(q.search), Search, Str(q.search.GetOr("")))
    + Entry(TruthyString(q.brandName), BrandName, Str(q.brandName.GetOr("")))
    + Entry(q.minPhosphorusPer100kcal.Some?, MinPhosphorus, Num(q.minPhosphorusPer100kcal.GetOr(0.0)))
    + Entry(q.maxPhosphorusPer100kcal.Some?, MaxPhosphorus, Num(q.maxPhosphorusPer100kcal.GetOr(0.0)))
    + Entry(TruthyNumber(q.page), Page, Num(q.page.GetOr(0) as real))
    + Entry(TruthyNumber(q.limit), Limit, Num(q.limit.GetOr(0) as real))
  }

  /** The names of `ps` rank in strictly increasing order, all within
      `[lo, hi)`. */
  predicate Chain(ps: SearchParams, lo: nat, hi: nat)
    decreases |ps|
  {
    ps == [] || (lo <= ps[0].0.Rank() < hi && Chain(ps[1..], ps[0].0.Rank() + 1, hi))
  }

  /** The names of `ps` rank in strictly increasing order. */
  predicate Ordered(ps: SearchParams) {
    forall i, j :: 0 <= i < j < |ps| ==> ps[i].0.Rank() < ps[j].0.Rank()
  }

  /** No name but `k` occurs in `e`. */
  predicate OnlyName(e: SearchParams, k: ParamName) {
    forall o :: HasKey(e, o) ==> o == k
  }

  /** A guarded pair carries only its own name, at its own rank, and has its
      value exactly when the guard holds. */
  lemma EntryFacts(present: bool, k: ParamName, v: ParamValue)
    ensures OnlyName(Entry(present, k, v), k)
    ensures Lookup(Entry(present, k, v), k) == if present then Some(v) else None
  {
  }

  /** A guarded pair is a chain at its name's rank. */
  lemma EntryChain(present: bool, k: ParamName, v: ParamValue)
    ensures Chain(Entry(present, k, v), k.Rank(), k.Rank() + 1)
  {
    if present {
      assert Entry(present, k, v)[1..] == [];
    }
  }

  /** A chain stays one under a lower bound. */
  lemma ChainWiden(ps: SearchParams, lo: nat, lo': nat, hi: nat)
    requires lo' <= lo && Chain(ps, lo, hi)
    ensures Chain(ps, lo', hi)
  {
  }

  /** Two chains over adjacent ranges make one. */
  lemma {:induction false} ChainConcat(a: SearchParams, b: SearchParams, lo: nat, mid: nat, hi: nat)
    requires lo <= mid <= hi
    requires Chain(a, lo, mid) && Chain(b, mid, hi)
    ensures Chain(a + b, lo, hi)
    decreases |a|
  {
    if a == [] {
      assert a + b == b;
      ChainWiden(b, mid, lo, hi);
    } else {
      assert (a + b)[0] == a[0];
      assert (a + b)[1..] == a[1..] + b;
      ChainConcat(a[1..], b, a[0].0.Rank() + 1, mid, hi);
    }
  }

  /** A chain is ordered, and each of its names ranks within its range. */
  lemma {:induction false} ChainOrdered(ps: SearchParams, lo: nat, hi: nat)
    requires Chain(ps, lo, hi)
    ensures forall i :: 0 <= i < |ps| ==> lo <= ps[i].0.Rank() < hi
    ensures Ordered(ps)
    decreases |ps|
  {
    if ps != [] {
      var t := ps[1..];
      ChainOrdered(t, ps[0].0.Rank() + 1, hi);
      forall i | 0 < i < |ps| ensures ps[0].0.Rank() < ps[i].0.Rank() < hi {
        assert ps[i] == t[i - 1];
      }
      forall i, j | 0 <= i < j < |ps| ensures ps[i].0.Rank() < ps[j].0.Rank() {
        assert ps[j] == t[j - 1];
        if i > 0 {
          assert ps[i] == t[i - 1];
        }
      }
    }
  }

  /** A chain below the rank of `k` does not contain `k`. */
  lemma ChainMissing(ps: SearchParams, lo: nat, hi: nat, k: ParamName)
    requires Chain(ps, lo, hi) && hi <= k.Rank()
    ensures !HasKey(ps, k)
  {
    ChainOrdered(ps, lo, hi);
  }

  /** `[] + a` is `a`. */
  lemma EmptyConcat(a: SearchParams)
    ensures [] + a == a
  {
  }

  /** `if (guard) searchParams.set(k, v)` on a list whose names all rank
      below `k`: the pair is appended exactly when the guard holds. */
  method SetWhen(ps: SearchParams, present: bool, k: ParamName, v: ParamValue) returns (r: SearchParams)
    requires Chain(ps, 0, k.Rank())
    ensures r == ps + Entry(present, k, v)
    ensures Chain(r, 0, k.Rank() + 1)
  {
    EntryChain(present, k, v);
    ChainConcat(ps, Entry(present, k, v), 0, k.Rank(), k.Rank() + 1);
    if present {
      ChainMissing(ps, 0, k.Rank(), k);
      SetParamAppends(ps, k, v);
      r := SetParam(ps, k, v);
    } else {
      r := ps;
    }
  }

  /** `getCannedFoods(params)` builds its query string by guarded `set` calls
      on a fresh `URLSearchParams`, in the source's order; the result is
      `ExpectedParams(params)`, whose meaning `ExpectedParamsLookup` and
      `ExpectedParamsOrdered` state. */
  method BuildSearchParams(q: QueryParams) returns (ps: SearchParams)
    ensures ps == ExpectedParams(q)
  {
    ps := [];
    ps := SetWhen(ps, TruthyString(q.search), Search, Str(q.search.GetOr("")));
    EmptyConcat(Entry(TruthyString(q.search), Search, Str(q.search.GetOr(""))));
    ps := SetWhen(ps, TruthyString(q.brandName), BrandName, Str(q.brandName.GetOr("")));
    ps := SetWhen(ps, q.minPhosphorusPer100kcal.Some?, MinPhosphorus, Num(q.minPhosphorusPer100kcal.GetOr(0.0)));
    ps := SetWhen(ps, q.maxPhosphorusPer100kcal.Some?, MaxPhosphorus, Num(q.maxPhosphorusPer100kcal.GetOr(0.0)));
    ps := SetWhen(ps, TruthyNumber(q.page), Page, Num(q.page.GetOr(0) as real));
    ps := SetWhen(ps, TruthyNumber(q.limit), Limit, Num(q.limit.GetOr(0) as real));
  }

  /** Looking a name up in a concatenation: the first part wins. */
  lemma {:induction false} LookupConcat(a: SearchParams, b: SearchParams, k: ParamName)
    ensures Lookup(a + b, k) == if HasKey(a, k) then Lookup(a, k) else Lookup(b, k)
  {
    if a == [] {
      assert a + b == b;
    } else if a[0].0 == k {
      assert (a + b)[0] == a[0];
    } else {
      assert (a + b)[0] == a[0];
      assert (a + b)[1..] == a[1..] + b;
      LookupConcat(a[1..], b, k);
      assert HasKey(a, k) <==> HasKey(a[1..], k) by {
        if HasKey(a, k) {
          var i :| 0 <= i < |a| && a[i].0 == k;
          assert a[1..][i - 1] == a[i];
        }
        if HasKey(a[1..], k) {
          var i :| 0 <= i < |a[1..]| && a[1..][i].0 == k;
          assert a[i + 1] == a[1..][i];
        }
      }
    }
  }

  /** Six parts, each carrying only its own name, names in increasing rank:
      a name is looked up in its own part, and any other name is missing. */
  lemma LookupSix(e0: SearchParams, e1: SearchParams, e2: SearchParams,
                  e3: SearchParams, e4: SearchParams, e5: SearchParams,
                  k0: ParamName, k1: ParamName, k2: ParamName,
                  k3: ParamName, k4: ParamName, k5: ParamName, o: ParamName)
    requires OnlyName(e0, k0) && OnlyName(e1, k1) && OnlyName(e2, k2)
    requires OnlyName(e3, k3) && OnlyName(e4, k4) && OnlyName(e5, k5)
    requires k0.Rank() < k1.Rank() < k2.Rank() < k3.Rank() < k4.Rank() < k5.Rank()
    ensures Lookup(e0 + e1 + e2 + e3 + e4 + e5, o)
            == if o == k0 then Lookup(e0, o)
               else if o == k1 then Lookup(e1, o)
               else if o == k2 then Lookup(e2, o)
               else if o == k3 then Lookup(e3, o)
               else if o == k4 then Lookup(e4, o)
               else if o == k5 then Lookup(e5, o)
               else None
  {
    assert e0 + e1 + e2 + e3 + e4 + e5 == e0 + (e1 + (e2 + (e3 + (e4 + e5))));
    LookupConcat(e0, e1 + (e2 + (e3 + (e4 + e5))), o);
    LookupConcat(e1, e2 + (e3 + (e4 + e5)), o);
    LookupConcat(e2, e3 + (e4 + e5), o);
    LookupConcat(e3, e4 + e5, o);
    LookupConcat(e4, e5, o);
  }

  /** What the list request carries: `search` and `brandName` only when
      non-empty, the phosphorus bounds whenever defined (0 included), `page`
      and `limit` only when truthy (0 omitted), each with its own value. */
  lemma ExpectedParamsLookup(q: QueryParams)
    ensures Lookup(ExpectedParams(q), Search)
            == (if TruthyString(q.search) then Some(Str(q.search.value)) else None)
    ensures Lookup(ExpectedParams(q), BrandName)
            == (if TruthyString(q.brandName) then Some(Str(q.brandName.value)) else None)
    ensures Lookup(ExpectedParams(q), MinPhosphorus)
            == (if q.minPhosphorusPer100kcal.Some? then Some(Num(q.minPhosphorusPer100kcal.value)) else None)
    ensures Lookup(ExpectedParams(q), MaxPhosphorus)
            == (if q.maxPhosphorusPer100kcal.Some? then Some(Num(q.maxPhosphorusPer100kcal.value)) else None)
    ensures Lookup(ExpectedParams(q), Page)
            == (if TruthyNumber(q.page) then Some(Num(q.page.value as real)) else None)
    ensures Lookup(ExpectedParams(q), Limit)
            == (if TruthyNumber(q.limit) then Some(Num(q.limit.value as real)) else None)
  {
    var e0 := Entry(TruthyString(q.search), Search, Str(q.search.GetOr("")));
    var e1 := Entry(TruthyString(q.brandName), BrandName, Str(q.brandName.GetOr("")));
    var e2 := Entry(q.minPhosphorusPer100kcal.Some?, MinPhosphorus, Num(q.minPhosphorusPer100kcal.GetOr(0.0)));
    var e3 := Entry(q.maxPhosphorusPer100kcal.Some?, MaxPhosphorus, Num(q.maxPhosphorusPer100kcal.GetOr(0.0)));
    var e4 := Entry(TruthyNumber(q.page), Page, Num(q.page.GetOr(0) as real));
    var e5 := Entry(TruthyNumber(q.limit), Limit, Num(q.limit.GetOr(0) as real));
    EntryFacts(TruthyString(q.search), Search, Str(q.search.GetOr("")));
    EntryFacts(TruthyString(q.brandName), BrandName, Str(q.brandName.GetOr("")));
    EntryFacts(q.minPhosphorusPer100kcal.Some?, MinPhosphorus, Num(q.minPhosphorusPer100kcal.GetOr(0.0)));
    EntryFacts(q.maxPhosphorusPer100kcal.Some?, MaxPhosphorus, Num(q.maxPhosphorusPer100kcal.GetOr(0.0)));
    EntryFacts(TruthyNumber(q.page), Page, Num(q.page.GetOr(0) as real));
    EntryFacts(TruthyNumber(q.limit), Limit, Num(q.limit.GetOr(0) as real));
    LookupSix(e0, e1, e2, e3, e4, e5, Search, BrandName, MinPhosphorus, MaxPhosphorus, Page, Limit, Search);
    LookupSix(e0, e1, e2, e3, e4, e5, Search, BrandName, MinPhosphorus, MaxPhosphorus, Page, Limit, BrandName);
    LookupSix(e0, e1, e2, e3, e4, e5, Search, BrandName, MinPhosphorus, MaxPhosphorus, Page, Limit, MinPhosphorus);
    LookupSix(e0, e1, e2, e3, e4, e5, Search, BrandName, MinPhosphorus, MaxPhosphorus, Page, Limit, MaxPhosphorus);
    LookupSix(e0, e1, e2, e3, e4, e5, Search, BrandName, MinPhosphorus, MaxPhosphorus, Page, Limit, Page);
    LookupSix(e0, e1, e2, e3, e4, e5, Search, BrandName, MinPhosphorus, MaxPhosphorus, Page, Limit, Limit);
  }

  /** Six chains over the ranks 0 to 5 make one chain over `[0, 6)`. */
  lemma ChainSix(e0: SearchParams, e1: SearchParams, e2: SearchParams,
                 e3: SearchParams, e4: SearchParams, e5: SearchParams)
    requires Chain(e0, 0, 1) && Chain(e1, 1, 2) && Chain(e2, 2, 3)
    requires Chain(e3, 3, 4) && Chain(e4, 4, 5) && Chain(e5, 5, 6)
    ensures Chain(e0 + e1 + e2 + e3 + e4 + e5, 0, 6)
  {
    ChainConcat(e0, e1, 0, 1, 2);
    ChainConcat(e0 + e1, e2, 0, 2, 3);
    ChainConcat(e0 + e1 + e2, e3, 0, 3, 4);
    ChainConcat(e0 + e1 + e2 + e3, e4, 0, 4, 5);
    ChainConcat(e0 + e1 + e2 + e3 + e4, e5, 0, 5, 6);
  }

  /** The names of the list request appear in the fixed order search,
      brandName, min, max, page, limit, each at most once; nothing else, in
      particular not the AbortSignal, is serialised (a `ParamName` has no
      other case). */
  lemma ExpectedParamsOrdered(q: QueryParams)
    ensures Ordered(ExpectedParams(q))
  {
    var e0 := Entry(TruthyString(q.search), Search, Str(q.search.GetOr("")));
    var e1 := Entry(TruthyString(q.brandName), BrandName, Str(q.brandName.GetOr("")));
    var e2 := Entry(q.minPhosphorusPer100kcal.Some?, MinPhosphorus, Num(q.minPhosphorusPer100kcal.GetOr(0.0)));
    var e3 := Entry(q.maxPhosphorusPer100kcal.Some?, MaxPhosphorus, Num(q.maxPhosphorusPer100kcal.GetOr(0.0)));
    var e4 := Entry(TruthyNumber(q.page), Page, Num(q.page.GetOr(0) as real));
    var e5 := Entry(TruthyNumber(q.limit), Limit, Num(q.limit.GetOr(0) as real));
    EntryChain(TruthyString(q.search), Search, Str(q.search.GetOr("")));
    EntryChain(TruthyString(q.brandName), BrandName, Str(q.brandName.GetOr("")));
    EntryChain(q.minPhosphorusPer100kcal.Some?, MinPhosphorus, Num(q.minPhosphorusPer100kcal.GetOr(0.0)));
    EntryChain(q.maxPhosphorusPer100kcal.Some?, MaxPhosphorus, Num(q.maxPhosphorusPer100kcal.GetOr(0.0)));
    EntryChain(TruthyNumber(q.page), Page, Num(q.page.GetOr(0) as real));
    EntryChain(TruthyNumber(q.limit), Limit, Num(q.limit.GetOr(0) as real));
    ChainSix(e0, e1, e2, e3, e4, e5);
    ChainOrdered(e0 + e1 + e2 + e3 + e4 + e5, 0, 6);
  }

  const FetchCannedFoodsFailure := "Failed to fetch canned foods"

  /** `getCannedFoods`, once its request is answered: data only from an ok
      response; a non-ok status throws "Failed to fetch canned foods"; an
      aborted request throws an AbortError. */
  function GetCannedFoods(resp: Response<PaginatedResponse>): (c: Completion<PaginatedResponse>)
    ensures c.Return? <==> resp.Ok?
    ensures c.Return? ==> c.value == resp.body
    ensures resp.NonOk? ==> c == Throw(PlainError(FetchCannedFoodsFailure))
    ensures IsAbortError(c.thrown) <== c.Throw? && resp.Aborted?
    ensures c.Throw? && !resp.NonOk? ==> c.thrown == RejectionOf(resp)
  {
    ExpectOk(resp, FetchCannedFoodsFailure)
  }

  /** `getCannedFood(id)`, once answered: the record only from an ok
      response; a non-ok status throws "Failed to fetch canned food"; a
      rejected `fetch` or `response.json()` propagates its own error. */
  function GetCannedFood(resp: Response<CannedFood>): (c: Completion<CannedFood>)
    ensures c.Return? <==> resp.Ok?
    ensures c.Return? ==> c.value == resp.body
    ensures c.Throw? && !resp.NonOk? ==> c.thrown == RejectionOf(resp)
    ensures resp.NonOk? ==> c == Throw(PlainError("Failed to fetch canned food"))
  {
    ExpectOk(resp, "Failed to fetch canned food")
  }

  /** `getBrands()`, once answered: the `brands` field of the body. */
  function GetBrands(resp: Response<BrandsResponse>): (c: Completion<seq<string>>)
    ensures c.Return? <==> resp.Ok?
    ensures c.Return? ==> c.value == resp.body.brands
    ensures resp.NonOk? ==> c == Throw(PlainError("Failed to fetch brands"))
  {
    match ExpectOk(resp, "Failed to fetch brands")
    case Return(data) => Return(data.brands)
    case Throw(t) => Throw(t)
  }

  const AnalyzeFailure := "Failed to analyze image"
  const UnknownError := "Unknown error"

  /** What V8 throws for `error.message` when `error` is `null`. */
  const NullMessageRead := "Cannot read properties of null (reading 'message')"

  /** What `analyzeImage` throws for a non-ok response. A body that is not
      JSON counts as `{ message: "Unknown error" }`. A `null` body makes
      `error.message` itself throw a TypeError. Otherwise the `message`
      field, when truthy, becomes the Error's message (a non-string one
      through `String(value)`), and an absent or falsy one falls back to
      "Failed to analyze image". The message is empty only for a truthy
      non-string `message` whose text is empty, such as `[]`. */
  function AnalyzeError(body: ErrorBody): (t: Thrown)
    ensures t.Error?
    ensures t.name == "TypeError" <==> body.JsonNull?
    ensures body.JsonNull? ==> t.message == NullMessageRead
    ensures !body.JsonNull? ==> t.name == "Error"
    ensures body.NotJson? ==> t.message == UnknownError
    ensures body.Json? && body.message.Some? ==>
              (match body.message.value
               case StringField(m) => t.message == (if m != "" then m else AnalyzeFailure)
               case OtherField(truthy, shown) => t.message == (if truthy then shown else AnalyzeFailure))
    ensures body == Json(None) ==> t.message == AnalyzeFailure
    ensures t.message == "" <==> body == Json(Some(OtherField(true, "")))
  {
    match body
    case NotJson => PlainError(UnknownError)
    case JsonNull => Error("TypeError", NullMessageRead)
    case Json(msg) =>
      match msg
      case Some(StringField(m)) => if m != "" then PlainError(m) else PlainError(AnalyzeFailure)
      case Some(OtherField(truthy, shown)) => if truthy then PlainError(shown) else PlainError(AnalyzeFailure)
      case None => PlainError(AnalyzeFailure)
  }

  /** `analyzeImage(file)`, once answered: the body of an ok response, or
      what `AnalyzeError` makes of the error body, or the propagated
      rejection of `fetch` or `response.json()`. */
  function AnalyzeImage(resp: Response<AnalyzeResponse>): (c: Completion<AnalyzeResponse>)
    ensures c.Return? <==> resp.Ok?
    ensures c.Return? ==> c.value == resp.body
    ensures resp.NonOk? ==> c == Throw(AnalyzeError(resp.errorBody))
    ensures c.Throw? && !resp.NonOk? ==> c.thrown == RejectionOf(resp)
    ensures c.Throw? ==> c.thrown.Error?
  {
    match resp
    case Ok(body) => Return(body)
    case NonOk(_, errorBody) => Throw(AnalyzeError(errorBody))
    case _ => Throw(RejectionOf(resp))
  }

  /** `deleteCannedFood(id)`, once answered. The body is never read, so any
      2xx status succeeds, even one whose body would fail to read. */
  function DeleteCannedFood(resp: Response<()>): (c: Completion<()>)
    ensures c.Return? <==> resp.Ok? || resp.BodyRejected?
    ensures resp.NonOk? ==> c == Throw(PlainError("Failed to delete canned food"))
  {
    match resp
    case Ok(_) => Return(())
    case BodyRejected(_, _) => Return(())
    case NonOk(_, _) => Throw(PlainError("Failed to delete canned food"))
    case _ => Throw(RejectionOf(resp))
  }

  /** `getImageUrl(path)`: a reference starting with "http" is taken as
      absolute and passed through; any other is prefixed by the backend
      origin. */
  function GetImageUrl(apiBase: string, path: string): (url: string)
    ensures StartsWith(path, "http") ==> url == path
    ensures !StartsWith(path, "http") ==> url == apiBase + path
  {
    if StartsWith(path, "http") then path else apiBase + path
  }

  /** With an "http…" backend origin, every resolved URL is absolute, and
      resolving again changes nothing. */
  lemma GetImageUrlIdempotent(apiBase: string, path: string)
    requires StartsWith(apiBase, "http")
    ensures StartsWith(GetImageUrl(apiBase, path), "http")
    ensures GetImageUrl(apiBase, GetImageUrl(apiBase, path)) == GetImageUrl(apiBase, path)
  {
    if !StartsWith(path, "http") {
      assert (apiBase + path)[..4] == apiBase[..4];
    }
  }
}
