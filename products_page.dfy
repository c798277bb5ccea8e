/** The product listing page (`src/app/products/page.tsx`): the URL's search
    parameters become a listing query with defaults for paging and sorting, the
    query is fetched, and a failed fetch shows an empty listing. */
module ProductsPage {
  import opened Wrappers
  import opened Text
  import opened SearchParams
  import opened Catalog
  import opened ProductAction

  /** The search parameters as the framework hands them to a page: one value per
      name. */
  type Record = map<string, string>

  function Lookup(rec: Record, k: string): Option<string> {
    if k in rec then Some(rec[k]) else None
  }

  /** The query the page builds: `page`, `limit`, `sortBy` and `sortOrder` fall
      back to "1", "12", "createdAt" and "desc" when missing or empty; the other
      fields are copied as they are. */
  function Decode(rec: Record): (q: ProductQuery)
    ensures Truthy(q.page) && Truthy(q.limit) && Truthy(q.sortBy) && Truthy(q.sortOrder)
    ensures Truthy(Lookup(rec, "page")) ==> q.page == Lookup(rec, "page")
    ensures !Truthy(Lookup(rec, "page")) ==> q.page == Some("1")
    ensures Truthy(Lookup(rec, "limit")) ==> q.limit == Lookup(rec, "limit")
    ensures !Truthy(Lookup(rec, "limit")) ==> q.limit == Some("12")
    ensures Truthy(Lookup(rec, "sortBy")) ==> q.sortBy == Lookup(rec, "sortBy")
    ensures !Truthy(Lookup(rec, "sortBy")) ==> q.sortBy == Some("createdAt")
    ensures Truthy(Lookup(rec, "sortOrder")) ==> q.sortOrder == Lookup(rec, "sortOrder")
    ensures !Truthy(Lookup(rec, "sortOrder")) ==> q.sortOrder == Some("desc")
    ensures forall j | 4 <= j < |QueryKeys| :: Values(q)[j] == Lookup(rec, QueryKeys[j])
  {
    ProductQuery(
      page := Some(OrElse(Lookup(rec, "page"), "1")),
      limit := Some(OrElse(Lookup(rec, "limit"), "12")),
      sortBy := Some(OrElse(Lookup(rec, "sortBy"), "createdAt")),
      sortOrder := Some(OrElse(Lookup(rec, "sortOrder"), "desc")),
      category := Lookup(rec, "category"),
      gender := Lookup(rec, "gender"),
      minPrice := Lookup(rec, "minPrice"),
      maxPrice := Lookup(rec, "maxPrice"),
      size := Lookup(rec, "size"),
      color := Lookup(rec, "color"),
      search := Lookup(rec, "search"))
  }

  /** Parameters the query does not know about do not change it. */
  lemma DecodeIgnoresUnknown(rec: Record, k: string, v: string)
    requires k !in QueryKeys
    ensures Decode(rec[k := v]) == Decode(rec)
  {
    assert forall j | 0 <= j < |QueryKeys| :: Lookup(rec[k := v], QueryKeys[j]) == Lookup(rec, QueryKeys[j]);
  }

  /** `r` with `k` bound to the value of `o`, or `r` itself when `o` is absent. */
  function Put(r: Record, k: string, o: Option<string>): Record {
    if o.Some? then r[k := o.value] else r
  }

  /** The first `n` fields of `q` as page parameters: a decoded query handed
      back to the page as its own search parameters. */
  function AsRecord(q: ProductQuery, n: nat): (rec: Record)
    requires n <= |QueryKeys|
    ensures forall k | k in rec :: k in QueryKeys[..n]
    ensures forall j | 0 <= j < n :: Lookup(rec, QueryKeys[j]) == Values(q)[j]
  {
    if n == 0 then map[]
    else
      var r := Put(AsRecord(q, n - 1), QueryKeys[n - 1], Values(q)[n - 1]);
      QueryKeysDistinct();
      assert QueryKeys[..n] == QueryKeys[..n - 1] + [QueryKeys[n - 1]];
      assert QueryKeys[n - 1] !in QueryKeys[..n - 1];
      r
  }

  /** Decoding an already decoded query changes nothing. */
  lemma DecodeIdempotent(rec: Record)
    ensures Decode(AsRecord(Decode(rec), |QueryKeys|)) == Decode(rec)
  {
    var d := Decode(rec);
    var again := AsRecord(d, |QueryKeys|);
    forall j | 0 <= j < |QueryKeys| ensures Values(Decode(again))[j] == Values(d)[j] {
      DecodeField(again, d, j);
    }
    ValuesInjective(Decode(again), d);
  }

  /** A field the record holds with a usable value is decoded as it is. */
  lemma DecodeField(rec: Record, q: ProductQuery, j: nat)
    requires j < |QueryKeys| && Lookup(rec, QueryKeys[j]) == Values(q)[j]
    requires j < 4 ==> Truthy(Values(q)[j])
    ensures Values(Decode(rec))[j] == Values(q)[j]
  {
  }

  /** A query every field of which is either absent or non-empty, with the four
      defaulted fields present: the queries `Decode` returns for URLs without
      empty parameters. */
  predicate WellFormed(q: ProductQuery) {
    && Truthy(q.page) && Truthy(q.limit) && Truthy(q.sortBy) && Truthy(q.sortOrder)
    && forall j | 4 <= j < |QueryKeys| :: Values(q)[j].None? || Values(q)[j].value != ""
  }

  lemma ValuesInjective(a: ProductQuery, b: ProductQuery)
    requires forall j | 0 <= j < |QueryKeys| :: Values(a)[j] == Values(b)[j]
    ensures a == b
  {
    assert Values(a)[0] == Values(b)[0] && Values(a)[1] == Values(b)[1] && Values(a)[2] == Values(b)[2];
    assert Values(a)[3] == Values(b)[3] && Values(a)[4] == Values(b)[4] && Values(a)[5] == Values(b)[5];
    assert Values(a)[6] == Values(b)[6] && Values(a)[7] == Values(b)[7] && Values(a)[8] == Values(b)[8];
    assert Values(a)[9] == Values(b)[9] && Values(a)[10] == Values(b)[10];
  }

  /** A URL without empty parameters decodes to a well-formed query. */
  lemma DecodeWellFormed(rec: Record)
    requires forall k | k in rec :: rec[k] != ""
    ensures WellFormed(Decode(rec))
  {
  }

  lemma LookupRecord(p: Params, k: string)
    ensures Lookup(ToRecord(p), k) == Get(p, k)
  {
  }

  /** The parameters `fetchProducts` sends for a well-formed query, read back as
      a page's search parameters, give back the same query: navigating to the
      request's own URL shows the same listing. */
  lemma RoundTrip(q: ProductQuery, params: Params)
    requires WellFormed(q) && IsEncodingOf(params, q)
    ensures Decode(ToRecord(params)) == q
  {
    var d := Decode(ToRecord(params));
    forall j | 0 <= j < |QueryKeys| ensures Values(d)[j] == Values(q)[j] {
      RoundTripField(q, params, j);
    }
    ValuesInjective(d, q);
  }

  /** The round trip, one field at a time. */
  lemma RoundTripField(q: ProductQuery, params: Params, j: nat)
    requires WellFormed(q) && IsEncodingOf(params, q) && j < |QueryKeys|
    ensures Values(Decode(ToRecord(params)))[j] == Values(q)[j]
  {
    var rec := ToRecord(params);
    LookupRecord(params, QueryKeys[j]);
    assert Lookup(rec, QueryKeys[j]) == Included(q, j) == Values(q)[j];
    DecodeField(rec, q, j);
  }

  /** What the page shows when the fetch fails. */
  const Fallback := ProductsResponse(success := false, products := [], total := 0, page := 1, totalPages := 0, limit := 12)

  /** `fetchProducts(query).catch(...)`: the response on success, the empty
      listing otherwise. */
  function Listing(fetched: Result<ProductsResponse, string>): (data: ProductsResponse)
    ensures fetched.Success? ==> data == fetched.value
    ensures fetched.Failure? ==>
      !data.success && data.products == [] && data.total == 0 && data.page == 1 && data.totalPages == 0 && data.limit == 12
  {
    match fetched
    case Success(r) => r
    case Failure(_) => Fallback
  }

  /** The page: decode, fetch, fall back. The request carries exactly the
      non-empty parameters of the URL that the query knows, with the paging and
      sorting defaults filled in. */
  method Render(rec: Record, server: Params -> HttpResponse<ProductsResponse>)
    returns (request: Params, data: ProductsResponse)
    ensures IsEncodingOf(request, Decode(rec))
    ensures server(request).ok ==> data == server(request).body
    ensures !server(request).ok ==> data == Fallback
  {
    var fetched;
    request, fetched := FetchProducts(Decode(rec), server);
    data := Listing(fetched);
  }
}
