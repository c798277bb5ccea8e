/** The public catalogue requests (`src/actions/product.action.ts`): the listing
    query is encoded into URL parameters, dropping empty fields, and a response
    that is not ok becomes an error. The network is a parameter: `server` maps a
    request to the response it gets. */
module ProductAction {
  import opened Wrappers
  import opened Text
  import opened SearchParams
  import opened Catalog

  datatype HttpResponse<T> = HttpResponse(ok: bool, statusText: string, body: T)

  datatype ProductDetailResponse = ProductDetailResponse(success: bool, product: Product)

  /** What the field named `QueryKeys[j]` contributes to the request: its value
      when that is not `undefined`, `null` or `''`, otherwise nothing. */
  function Included(q: ProductQuery, j: nat): (v: Option<string>)
    requires j < |QueryKeys|
    ensures v.Some? ==> v.value != "" && v == Values(q)[j]
    ensures v.None? ==> Values(q)[j].None? || Values(q)[j].value == ""
  {
    if Truthy(Values(q)[j]) then Values(q)[j] else None
  }

  /** `params` encodes the first `n` fields of `q`: it names only those fields,
      each at most once, and carries exactly the included ones with their
      values. */
  ghost predicate EncodesPrefix(params: Params, q: ProductQuery, n: nat)
    requires n <= |QueryKeys|
  {
    && (forall k | Has(params, k) :: k in QueryKeys[..n])
    && (forall j | 0 <= j < n :: Count(params, QueryKeys[j]) <= 1 && Get(params, QueryKeys[j]) == Included(q, j))
  }

  /** `params` is an encoding of the whole query. */
  ghost predicate IsEncodingOf(params: Params, q: ProductQuery) {
    EncodesPrefix(params, q, |QueryKeys|)
  }

  /** One step of the `forEach`: `set` the next field when it is included. */
  function EncodeStep(params: Params, q: ProductQuery, i: nat): Params
    requires i < |QueryKeys|
  {
    var v := Values(q)[i];
    if v.Some? && v.value != "" then Set(params, QueryKeys[i], v.value) else params
  }

  /** The step names only the first `i + 1` fields. */
  lemma EncodeStepNames(params: Params, q: ProductQuery, i: nat)
    requires i < |QueryKeys|
    requires forall k | Has(params, k) :: k in QueryKeys[..i]
    ensures forall k | Has(EncodeStep(params, q, i), k) :: k in QueryKeys[..i + 1]
  {
    var next := EncodeStep(params, q, i);
    forall k' | Has(next, k') ensures k' in QueryKeys[..i + 1] {
      if k' != QueryKeys[i] {
        assert Get(next, k') == Get(params, k');
        assert k' in QueryKeys[..i];
      } else {
        assert QueryKeys[..i + 1][i] == k';
      }
    }
  }

  /** The step carries the first `i + 1` included fields, each once. */
  lemma EncodeStepValues(params: Params, q: ProductQuery, i: nat)
    requires i < |QueryKeys|
    requires forall k | Has(params, k) :: k in QueryKeys[..i]
    requires forall j | 0 <= j < i :: Count(params, QueryKeys[j]) <= 1 && Get(params, QueryKeys[j]) == Included(q, j)
    ensures forall j | 0 <= j < i + 1 ::
      Count(EncodeStep(params, q, i), QueryKeys[j]) <= 1 && Get(EncodeStep(params, q, i), QueryKeys[j]) == Included(q, j)
  {
    QueryKeysDistinct();
    var next := EncodeStep(params, q, i);
    forall j | 0 <= j < i + 1
      ensures Count(next, QueryKeys[j]) <= 1 && Get(next, QueryKeys[j]) == Included(q, j)
    {
      if j < i {
        assert QueryKeys[j] != QueryKeys[i];
      } else if !Truthy(Values(q)[i]) {
        assert QueryKeys[i] !in QueryKeys[..i];
        assert !Has(params, QueryKeys[i]);
      }
    }
  }

  lemma EncodeStepKeeps(params: Params, q: ProductQuery, i: nat)
    requires i < |QueryKeys| && EncodesPrefix(params, q, i)
    ensures EncodesPrefix(EncodeStep(params, q, i), q, i + 1)
  {
    EncodeStepNames(params, q, i);
    EncodeStepValues(params, q, i);
  }

  /** The `forEach` over the query's entries that fills a fresh
      `URLSearchParams`. */
  method EncodeQuery(q: ProductQuery) returns (params: Params)
    ensures IsEncodingOf(params, q)
  {
    params := [];
    for i := 0 to |QueryKeys|
      invariant EncodesPrefix(params, q, i)
    {
      EncodeStepKeeps(params, q, i);
      var v := Values(q)[i];
      if v.Some? && v.value != "" {
        params := Set(params, QueryKeys[i], v.value);
      }
    }
  }

  /** `fetchProducts`: the request carries the encoded query; a response that is
      not ok fails with its status text. */
  method FetchProducts(query: ProductQuery, server: Params -> HttpResponse<ProductsResponse>)
    returns (request: Params, result: Result<ProductsResponse, string>)
    ensures IsEncodingOf(request, query)
    ensures server(request).ok ==> result == Success(server(request).body)
    ensures !server(request).ok ==> result == Failure("Failed to fetch products: " + server(request).statusText)
  {
    request := EncodeQuery(query);
    var res := server(request);
    if !res.ok {
      return request, Failure("Failed to fetch products: " + res.statusText);
    }
    result := Success(res.body);
  }

  /** `fetchProductBySlug`: the product path is requested; a response that is not
      ok fails with "Product not found". */
  function FetchProductBySlug(slug: string, server: string -> HttpResponse<ProductDetailResponse>)
    : (r: Result<ProductDetailResponse, string>)
    ensures r.Success? <==> server("/api/products/" + slug).ok
    ensures r.Success? ==> r.value == server("/api/products/" + slug).body
    ensures r.Failure? ==> r.error == "Product not found: " + server("/api/products/" + slug).statusText
  {
    var res := server("/api/products/" + slug);
    if !res.ok then Failure("Product not found: " + res.statusText) else Success(res.body)
  }
}
