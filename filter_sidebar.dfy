/** The listing's filter sidebar (`src/components/FilterSideBar.tsx`). Each
    handler copies the current search parameters, edits the copy and pushes
    it; the handlers here return the pushed parameters. The sidebar's own
    state (which sections are open, the price slider) is an object. */
module FilterSideBar {
  import opened Wrappers
  import opened Text
  import opened SearchParams

  /** The names `activeCount` looks at. `search` and `page` are not among them. */
  const FilterKeys: seq<string> := ["gender", "category", "size", "minPrice", "maxPrice", "color"]

  /** The slider's bounds. */
  const PriceFloor: int := 0
  const PriceCeiling: int := 10000

  /** How many of `ks` have a non-empty value in `p`. */
  function CountSet(p: Params, ks: seq<string>): (n: nat)
    ensures n <= |ks|
    ensures n == 0 <==> forall i | 0 <= i < |ks| :: !Truthy(Get(p, ks[i]))
  {
    if ks == [] then 0
    else (if Truthy(Get(p, ks[0])) then 1 else 0) + CountSet(p, ks[1..])
  }

  /** Two parameter lists that give the same value to every name of `ks` count
      the same. */
  lemma {:induction false} CountSetAgrees(p: Params, p': Params, ks: seq<string>)
    requires forall i | 0 <= i < |ks| :: Get(p, ks[i]) == Get(p', ks[i])
    ensures CountSet(p, ks) == CountSet(p', ks)
  {
    if ks != [] {
      CountSetAgrees(p, p', ks[1..]);
    }
  }

  /** `activeCount`: the filters with a non-empty value, at most six. */
  function ActiveCount(p: Params): (n: nat)
    ensures n <= 6
    ensures n == 0 <==> forall i | 0 <= i < |FilterKeys| :: !Truthy(Get(p, FilterKeys[i]))
  {
    CountSet(p, FilterKeys)
  }

  /** Setting or deleting a name outside `FilterKeys`, such as `search` or
      `page`, does not change the count. */
  lemma ActiveCountIgnores(p: Params, k: string, v: string)
    requires k !in FilterKeys
    ensures ActiveCount(Set(p, k, v)) == ActiveCount(p)
    ensures ActiveCount(Delete(p, k)) == ActiveCount(p)
  {
    CountSetAgrees(Set(p, k, v), p, FilterKeys);
    CountSetAgrees(Delete(p, k), p, FilterKeys);
  }

  /** The parameters `updateFilter(k, v)` pushes: `k` is removed when `v` is
      null or equal to its current value, set to `v` otherwise, and `page` is
      removed either way. */
  function Toggled(p: Params, k: string, v: Option<string>): (r: Params)
    ensures !Has(r, "page")
    ensures k != "page" && v.Some? && v != Get(p, k) ==> Get(r, k) == v && Count(r, k) == 1
    ensures v.None? || v == Get(p, k) ==> !Has(r, k)
    ensures forall k' | k' != k && k' != "page" :: Get(r, k') == Get(p, k') && Count(r, k') == Count(p, k')
  {
    var edited := if v.None? || v == Get(p, k) then Delete(p, k) else Set(p, k, v.value);
    Delete(edited, "page")
  }

  /** `updateFilter`. */
  method UpdateFilter(params: Params, k: string, v: Option<string>) returns (pushed: Params)
    ensures pushed == Toggled(params, k, v)
  {
    var p := params;
    if v.None? || v == Get(p, k) {
      p := Delete(p, k);
    } else {
      p := Set(p, k, v.value);
    }
    p := Delete(p, "page");
    pushed := p;
  }

  /** Clicking the same option twice, starting without that filter, only
      drops `page`: the option is a toggle. */
  lemma ToggleTwice(p: Params, k: string, v: Option<string>)
    requires !Has(p, k) && k != "page"
    ensures Toggled(Toggled(p, k, v), k, v) == Delete(p, "page")
  {
    assert Delete(p, k) == p;
    var once := Toggled(p, k, v);
    if v.None? {
      DropDrop(p, {"page"}, {"page"});
      assert {"page"} + {"page"} == {"page"};
    } else {
      var s := Set(p, k, v.value);
      assert once == Delete(s, "page");
      assert Get(once, k) == v;
      calc {
        Toggled(once, k, v);
        Delete(Delete(Delete(s, "page"), k), "page");
        { DropDrop(s, {"page"}, {k}); DropDrop(s, {"page"} + {k}, {"page"}); }
        Drop(s, {"page"} + {k} + {"page"});
        { assert {"page"} + {k} + {"page"} == {k} + {"page"}; }
        Drop(s, {k} + {"page"});
        { DropDrop(s, {k}, {"page"}); }
        Delete(Delete(s, k), "page");
        { DeleteAfterSet(p, k, v.value); }
        Delete(Delete(p, k), "page");
      }
    }
  }

  /** The parameters `applyPrice` pushes: both bounds written as numbers and
      `page` removed. */
  function PriceApplied(p: Params, lo: JsNumber, hi: JsNumber): (r: Params)
    ensures Get(r, "minPrice") == Some(NumberToString(lo)) && Count(r, "minPrice") == 1
    ensures Get(r, "maxPrice") == Some(NumberToString(hi)) && Count(r, "maxPrice") == 1
    ensures !Has(r, "page")
    ensures forall k | k != "minPrice" && k != "maxPrice" && k != "page" :: Get(r, k) == Get(p, k) && Count(r, k) == Count(p, k)
  {
    var withMin := Set(p, "minPrice", NumberToString(lo));
    var withMax := Set(withMin, "maxPrice", NumberToString(hi));
    SetOther(withMin, "maxPrice", NumberToString(hi), "minPrice");
    Delete(withMax, "page")
  }

  /** The slider's initial range: a bound missing from the URL, or empty, is
      the slider's own bound; a present one is read as a number. */
  function InitialPriceRange(p: Params): (range: (JsNumber, JsNumber))
    ensures !Truthy(Get(p, "minPrice")) ==> range.0 == Num(PriceFloor)
    ensures Truthy(Get(p, "minPrice")) ==> range.0 == ParseNumber(Get(p, "minPrice").value)
    ensures !Truthy(Get(p, "maxPrice")) ==> range.1 == Num(PriceCeiling)
    ensures Truthy(Get(p, "maxPrice")) ==> range.1 == ParseNumber(Get(p, "maxPrice").value)
  {
    var lo := Get(p, "minPrice");
    var hi := Get(p, "maxPrice");
    (if Truthy(lo) then ParseNumber(lo.value) else Num(PriceFloor),
     if Truthy(hi) then ParseNumber(hi.value) else Num(PriceCeiling))
  }

  /** Applying a price range and reloading the sidebar from the pushed URL
      shows the same range. */
  lemma ApplyThenReload(p: Params, lo: JsNumber, hi: JsNumber)
    ensures InitialPriceRange(PriceApplied(p, lo, hi)) == (lo, hi)
  {
    var r := PriceApplied(p, lo, hi);
    if lo.Num? { IntToStringRoundTrip(lo.value); }
    if hi.Num? { IntToStringRoundTrip(hi.value); }
    assert ParseNumber("NaN") == NaN;
  }

  /** The sidebar's own state. */
  class Sidebar {
    /** Which sections are expanded; a section without an entry counts as
        collapsed. */
    var open: map<string, bool>
    var priceRange: (JsNumber, JsNumber)

    /** Every section starts open; the slider starts from the URL. */
    constructor(p: Params)
      ensures open == map["gender" := true, "category" := true, "size" := true, "price" := true]
      ensures priceRange == InitialPriceRange(p)
    {
      open := map["gender" := true, "category" := true, "size" := true, "price" := true];
      priceRange := InitialPriceRange(p);
    }

    /** A section header click flips that section and no other. */
    method ToggleSection(key: string)
      modifies this
      ensures open == old(open)[key := !(key in old(open) && old(open)[key])]
      ensures priceRange == old(priceRange)
    {
      open := open[key := !(key in open && open[key])];
    }

    /** Moving the slider. */
    method SlidePrice(lo: int, hi: int)
      modifies this
      ensures priceRange == (Num(lo), Num(hi))
      ensures open == old(open)
    {
      priceRange := (Num(lo), Num(hi));
    }

    /** `applyPrice`: the slider's range goes into the copy, `page` goes out. */
    method ApplyPrice(params: Params) returns (pushed: Params)
      ensures pushed == PriceApplied(params, priceRange.0, priceRange.1)
    {
      var p := params;
      p := Set(p, "minPrice", NumberToString(priceRange.0));
      p := Set(p, "maxPrice", NumberToString(priceRange.1));
      p := Delete(p, "page");
      pushed := p;
    }

    /** `clearAll`: an empty query is pushed and the slider is reset. */
    method ClearAll() returns (pushed: Params)
      modifies this
      ensures pushed == [] && ActiveCount(pushed) == 0
      ensures priceRange == (Num(PriceFloor), Num(PriceCeiling))
      ensures InitialPriceRange(pushed) == priceRange
      ensures open == old(open)
    {
      pushed := [];
      priceRange := (Num(PriceFloor), Num(PriceCeiling));
    }
  }
}
