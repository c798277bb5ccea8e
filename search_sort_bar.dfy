/** The search box and sort menu above the listing
    (`src/components/SearchSortBar.tsx`). Each handler copies the current search
    parameters, edits the copy and pushes it; the handlers here return the
    pushed parameters. */
module SearchSortBar {
  import opened Wrappers
  import opened Text
  import opened SearchParams
  import opened Catalog

  /** The value of the sort menu: `sortBy-sortOrder`, each part defaulting to
      the newest-first ordering when missing or empty. */
  function CurrentSort(p: Params): (key: string)
    ensures !Truthy(Get(p, "sortBy")) && !Truthy(Get(p, "sortOrder")) ==> key == "createdAt-desc"
    ensures var (field, order) := (OrElse(Get(p, "sortBy"), "createdAt"), OrElse(Get(p, "sortOrder"), "desc"));
      '-' !in field && '-' !in order ==> SortFields(key) == (field, order)
  {
    OrElse(Get(p, "sortBy"), "createdAt") + "-" + OrElse(Get(p, "sortOrder"), "desc")
  }

  /** The menu value of a sort option. */
  function OptionKey(o: SortOption): (key: string)
    ensures '-' !in o.value && '-' !in o.order ==> SortFields(key) == (o.value, o.order)
  {
    o.value + "-" + o.order
  }

  /** `const [sortBy, sortOrder] = value.split('-')`: the first two pieces; a
      missing second piece is `undefined`, which `set` writes as the text
      "undefined". */
  function SortFields(value: string): (fields: (string, string))
    ensures '-' !in value ==> fields == (value, "undefined")
    ensures forall a, b | '-' !in a && '-' !in b && value == a + "-" + b :: fields == (a, b)
  {
    var parts := Split(value, '-');
    assert '-' !in value ==> parts == [value] by {
      if '-' !in value { SplitNone(value, '-'); }
    }
    forall a, b | '-' !in a && '-' !in b && value == a + "-" + b ensures parts == [a, b] {
      SplitFirst(a, '-', b);
      SplitNone(b, '-');
    }
    (parts[0], if |parts| > 1 then parts[1] else "undefined")
  }

  /** The parameters `handleSort(value)` pushes. */
  function SortApplied(p: Params, value: string): (r: Params)
    ensures Get(r, "sortBy") == Some(SortFields(value).0) && Count(r, "sortBy") == 1
    ensures Get(r, "sortOrder") == Some(SortFields(value).1) && Count(r, "sortOrder") == 1
    ensures !Has(r, "page")
    ensures forall k | k != "sortBy" && k != "sortOrder" && k != "page" :: Get(r, k) == Get(p, k) && Count(r, k) == Count(p, k)
  {
    var (sortBy, sortOrder) := SortFields(value);
    var withBy := Set(p, "sortBy", sortBy);
    SetOther(withBy, "sortOrder", sortOrder, "sortBy");
    Delete(Set(withBy, "sortOrder", sortOrder), "page")
  }

  /** `handleSort`. */
  method HandleSort(params: Params, value: string) returns (pushed: Params)
    ensures pushed == SortApplied(params, value)
  {
    var parts := Split(value, '-');
    var sortBy := parts[0];
    var sortOrder := if |parts| > 1 then parts[1] else "undefined";
    var p := params;
    p := Set(p, "sortBy", sortBy);
    p := Set(p, "sortOrder", sortOrder);
    p := Delete(p, "page");
    pushed := p;
  }

  /** No sort option's field or direction contains the separator. */
  lemma OptionsHaveNoDash()
    ensures forall o | o in SortOptions :: '-' !in o.value && '-' !in o.order && o.value != "" && o.order != ""
  {
  }

  /** Choosing any sort option and reading the menu back selects that option. */
  lemma SortRoundTrip(p: Params, o: SortOption)
    requires o in SortOptions
    ensures CurrentSort(SortApplied(p, OptionKey(o))) == OptionKey(o)
  {
    OptionsHaveNoDash();
    assert SortFields(OptionKey(o)) == (o.value, o.order);
  }

  /** The parameters the debounced `handleSearch(value)` pushes: a non-empty
      term is set, an empty one removes `search`, and `page` goes either way. */
  function SearchApplied(p: Params, value: string): (r: Params)
    ensures value != "" ==> Get(r, "search") == Some(value) && Count(r, "search") == 1
    ensures value == "" ==> !Has(r, "search")
    ensures !Has(r, "page")
    ensures forall k | k != "search" && k != "page" :: Get(r, k) == Get(p, k) && Count(r, k) == Count(p, k)
  {
    Delete(if value != "" then Set(p, "search", value) else Delete(p, "search"), "page")
  }

  /** `handleSearch`, once its delay has passed. */
  method HandleSearch(params: Params, value: string) returns (pushed: Params)
    ensures pushed == SearchApplied(params, value)
  {
    var p := params;
    if value != "" {
      p := Set(p, "search", value);
    } else {
      p := Delete(p, "search");
    }
    p := Delete(p, "page");
    pushed := p;
  }

  /** `clearSearch`: only `search` goes; unlike an emptied search box, the
      current `page` is kept. */
  method ClearSearch(params: Params) returns (pushed: Params)
    ensures !Has(pushed, "search")
    ensures forall k | k != "search" :: Get(pushed, k) == Get(params, k) && Count(pushed, k) == Count(params, k)
  {
    var p := params;
    p := Delete(p, "search");
    pushed := p;
  }

  /** The clear button shows only for a non-empty search term. */
  function ShowsClearButton(p: Params): (shown: bool)
    ensures shown <==> Has(p, "search") && Get(p, "search").value != ""
  {
    Truthy(Get(p, "search"))
  }
}
