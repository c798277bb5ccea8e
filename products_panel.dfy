/** The admin products table (`src/components/ProductsPanel.tsx`): reloads with
    the search term, soft deletion behind a confirmation dialog, the name and
    category search, and the switch between the list and the create/edit
    form. */
module ProductsPanel {
  import opened Wrappers
  import opened Text
  import opened SearchParams
  import opened Catalog
  import opened AdminTypes
  import opened AdminAction
  import opened Seqs
  import OrdersPanel

  /** `editProduct`: `null`, `'new'` or the product being edited. */
  datatype Editing = NotEditing | New | Existing(product: Product)

  /** What the panel renders. */
  datatype View = ListView | CreateForm | EditForm(product: Product)

  /** `editProduct !== null` shows the form: empty for `'new'`, loaded with the
      product otherwise. */
  function ViewOf(e: Editing): (v: View)
    ensures v == ListView <==> e == NotEditing
    ensures v == CreateForm <==> e == New
    ensures e.Existing? ==> v == EditForm(e.product)
  {
    match e
    case NotEditing => ListView
    case New => CreateForm
    case Existing(p) => EditForm(p)
  }

  /** The product the form is loaded with: none for a new product. */
  function FormProduct(e: Editing): (p: Option<Product>)
    requires e != NotEditing
    ensures e == New <==> p.None?
  {
    if e.Existing? then Some(e.product) else None
  }

  /** The search: an empty search matches; otherwise the name or the category
      contains it, ignoring case. */
  predicate Matches(p: Product, search: string): (r: bool)
    ensures ToLower(search) == ToLower(p.name) || ToLower(search) == ToLower(p.category) ==> r
    ensures r ==> search == "" || |search| <= |p.name| || |search| <= |p.category|
  {
    search == ""
    || Contains(ToLower(p.name), ToLower(search))
    || Contains(ToLower(p.category), ToLower(search))
  }

  /** `filtered`: the matching products, in list order. */
  function Filtered(products: seq<Product>, search: string): (r: seq<Product>)
    ensures forall p | p in r :: p in products && Matches(p, search)
    ensures forall p | p in products && Matches(p, search) :: p in r
    ensures SubseqOf(r, products)
  {
    Filter(products, (p: Product) => Matches(p, search))
  }

  lemma EmptySearchShowsAll(products: seq<Product>)
    ensures Filtered(products, "") == products
  {
    FilterAll(products, (p: Product) => Matches(p, ""));
  }

  /** The search ignores the case of what is typed. */
  lemma SearchIgnoresCase(p: Product, search: string)
    requires search != ""
    ensures Matches(p, search) <==> Matches(p, ToLower(search))
  {
    ToLowerIdempotent(search);
  }

  /** `prev.filter((p) => p._id !== id)`. */
  function WithoutProduct(products: seq<Product>, id: string): (r: seq<Product>)
    ensures forall p | p in r :: p in products && p.id != id
    ensures forall p | p in products && p.id != id :: p in r
    ensures SubseqOf(r, products)
    ensures forall p | p in products && p.id != id :: multiset(r)[p] == multiset(products)[p]
  {
    Filter(products, (p: Product) => p.id != id)
  }

  /** The query of every reload: fifty products and the search term. */
  function ReloadQuery(s: Option<string>): (q: ProductQuery)
    ensures ProductsQueryMap(q) == if Truthy(s) then map["page" := "1", "limit" := "50", "search" := s.value]
      else map["page" := "1", "limit" := "50"]
  {
    ProductQuery(None, Some("50"), None, None, None, None, None, None, None, None, s)
  }

  /** The panel's state. */
  class Panel {
    var products: seq<Product>
    var total: int
    var search: string
    var editProduct: Editing
    var confirmDelete: Option<string>

    constructor(initialProducts: seq<Product>, initialTotal: int)
      ensures products == initialProducts && total == initialTotal
      ensures search == "" && editProduct == NotEditing && confirmDelete == None
    {
      products := initialProducts;
      total := initialTotal;
      search := "";
      editProduct := NotEditing;
      confirmDelete := None;
    }

    /** `reload(s)`: the list and total are replaced by a successful response
        and kept otherwise. */
    method Reload(s: Option<string>, server: Params -> ProductsResponse) returns (request: Params)
      modifies this
      ensures Represents(request, ProductsQueryMap(ReloadQuery(s)))
      ensures server(request).success ==> products == server(request).products && total == server(request).total
      ensures !server(request).success ==> products == old(products) && total == old(total)
      ensures search == old(search) && editProduct == old(editProduct) && confirmDelete == old(confirmDelete)
    {
      request := AdminProductsQuery(ReloadQuery(s));
      var res := server(request);
      if res.success {
        products := res.products;
        total := res.total;
      }
    }

    /** Typing in the search box stores the text and reloads with it. */
    method Type(s: string, server: Params -> ProductsResponse) returns (request: Params)
      modifies this
      ensures search == s
      ensures Represents(request, ProductsQueryMap(ReloadQuery(Some(s))))
      ensures server(request).success ==> products == server(request).products && total == server(request).total
      ensures !server(request).success ==> products == old(products) && total == old(total)
      ensures editProduct == old(editProduct) && confirmDelete == old(confirmDelete)
    {
      search := s;
      request := Reload(Some(s), server);
    }

    method AskDelete(id: string)
      modifies this
      ensures confirmDelete == Some(id) && products == old(products) && total == old(total)
      ensures search == old(search) && editProduct == old(editProduct)
    {
      confirmDelete := Some(id);
    }

    method DismissDelete()
      modifies this
      ensures confirmDelete == None && products == old(products) && total == old(total)
      ensures search == old(search) && editProduct == old(editProduct)
    {
      confirmDelete := None;
    }

    /** `handleDelete`: a success drops the product, counts one fewer and
        closes the dialog; a refusal changes none of them. */
    method Delete(id: string, server: string -> Ack) returns (toast: OrdersPanel.Toast)
      modifies this
      ensures server(id).success ==> products == WithoutProduct(old(products), id) && total == old(total) - 1
      ensures server(id).success ==> confirmDelete == None && toast == OrdersPanel.ToastSuccess("Product soft-deleted")
      ensures !server(id).success ==> products == old(products) && total == old(total) && confirmDelete == old(confirmDelete)
      ensures !server(id).success ==> toast == OrdersPanel.ToastError(OrElse(server(id).message, "Delete failed"))
      ensures search == old(search) && editProduct == old(editProduct)
    {
      var res := server(id);
      if res.success {
        products := WithoutProduct(products, id);
        total := total - 1;
        confirmDelete := None;
        toast := OrdersPanel.ToastSuccess("Product soft-deleted");
      } else {
        toast := OrdersPanel.ToastError(OrElse(res.message, "Delete failed"));
      }
    }

    /** Opening the form for a new product or for an existing one. */
    method Edit(e: Editing)
      modifies this
      ensures editProduct == e && products == old(products) && search == old(search)
      ensures total == old(total) && confirmDelete == old(confirmDelete)
    {
      editProduct := e;
    }

    /** `handleSuccess`: back to the list, reloaded with the current search. */
    method Saved(server: Params -> ProductsResponse) returns (request: Params)
      modifies this
      ensures editProduct == NotEditing && ViewOf(editProduct) == ListView
      ensures Represents(request, ProductsQueryMap(ReloadQuery(Some(old(search)))))
      ensures server(request).success ==> products == server(request).products && total == server(request).total
      ensures !server(request).success ==> products == old(products) && total == old(total)
      ensures search == old(search) && confirmDelete == old(confirmDelete)
    {
      editProduct := NotEditing;
      request := Reload(Some(search), server);
    }
  }
}
