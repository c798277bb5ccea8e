/** The active-filter chips above the listing (`src/components/ActiveFilter.tsx`):
    one chip per filter name present in the URL, in a fixed order, each
    removable. */
module ActiveFilters {
  import opened Wrappers
  import opened SearchParams
  import FilterSideBar

  /** The names shown as chips, in display order. */
  const ActiveKeys: seq<string> := ["gender", "category", "size", "color", "search", "minPrice", "maxPrice"]

  /** The caption of each chip. */
  const FilterLabels: map<string, string> := map[
    "gender" := "Gender", "category" := "Category", "size" := "Size", "color" := "Color",
    "search" := "Search", "minPrice" := "Min Price", "maxPrice" := "Max Price"]

  /** The taka sign shown before price bounds. */
  const Taka: char := '\U{09F3}'

  datatype Chip = Chip(key: string, value: string)

  /** `a` comes before `b` in `ks`. */
  ghost predicate Before(ks: seq<string>, a: string, b: string) {
    exists x, y | 0 <= x < y < |ks| :: ks[x] == a && ks[y] == b
  }

  /** The chips for the names of `ks` present in `p`, in the order of `ks`. A
      name counts as present whatever its value, the empty string included. */
  function ChipsFor(p: Params, ks: seq<string>): (chips: seq<Chip>)
    ensures |chips| <= |ks|
    ensures forall i | 0 <= i < |chips| :: chips[i].key in ks && Get(p, chips[i].key) == Some(chips[i].value)
  {
    if ks == [] then []
    else
      var rest := ChipsFor(p, ks[1..]);
      var chips := if Get(p, ks[0]).Some? then [Chip(ks[0], Get(p, ks[0]).value)] + rest else rest;
      assert forall i | 0 <= i < |rest| :: rest[i].key in ks;
      chips
  }

  /** Every name of `ks` present in `p` has a chip. */
  lemma {:induction false} ChipsForComplete(p: Params, ks: seq<string>, k: string)
    requires k in ks && Has(p, k)
    ensures exists i | 0 <= i < |ChipsFor(p, ks)| :: ChipsFor(p, ks)[i].key == k
  {
    var chips, rest := ChipsFor(p, ks), ChipsFor(p, ks[1..]);
    if k == ks[0] {
      assert chips[0].key == k;
    } else {
      ChipsForComplete(p, ks[1..], k);
      var i :| 0 <= i < |rest| && rest[i].key == k;
      if Get(p, ks[0]).Some? {
        assert chips[i + 1].key == k;
      } else {
        assert chips[i].key == k;
      }
    }
  }

  /** The chips follow the order of `ks`. */
  lemma {:induction false} ChipsForOrdered(p: Params, ks: seq<string>)
    ensures forall i, j | 0 <= i < j < |ChipsFor(p, ks)| :: Before(ks, ChipsFor(p, ks)[i].key, ChipsFor(p, ks)[j].key)
  {
    if ks != [] {
      var chips, rest := ChipsFor(p, ks), ChipsFor(p, ks[1..]);
      ChipsForOrdered(p, ks[1..]);
      var d := if Get(p, ks[0]).Some? then 1 else 0;
      assert chips[d..] == rest;
      forall i, j | 0 <= i < j < |chips| ensures Before(ks, chips[i].key, chips[j].key) {
        var b := chips[j].key;
        assert b == rest[j - d].key && b in ks[1..];
        var y :| 0 <= y < |ks[1..]| && ks[1..][y] == b;
        if i < d {
          assert ks[0] == chips[i].key && ks[y + 1] == b;
        } else {
          assert Before(ks[1..], rest[i - d].key, b);
          var x', y' :| 0 <= x' < y' < |ks[1..]| && ks[1..][x'] == rest[i - d].key && ks[1..][y'] == b;
          assert ks[x' + 1] == chips[i].key && ks[y' + 1] == b;
        }
      }
    }
  }

  /** `active`. */
  function Active(p: Params): (chips: seq<Chip>)
    ensures |chips| <= 7
    ensures forall i | 0 <= i < |chips| :: chips[i].key in ActiveKeys && Get(p, chips[i].key) == Some(chips[i].value)
    ensures forall k | k in ActiveKeys && Has(p, k) :: exists i | 0 <= i < |chips| :: chips[i].key == k
    ensures forall i, j | 0 <= i < j < |chips| :: Before(ActiveKeys, chips[i].key, chips[j].key)
  {
    forall k | k in ActiveKeys && Has(p, k) ensures exists i | 0 <= i < |ChipsFor(p, ActiveKeys)| :: ChipsFor(p, ActiveKeys)[i].key == k {
      ChipsForComplete(p, ActiveKeys, k);
    }
    ChipsForOrdered(p, ActiveKeys);
    ChipsFor(p, ActiveKeys)
  }

  lemma ActiveKeysDistinct()
    ensures forall a, b | 0 <= a < b < |ActiveKeys| :: ActiveKeys[a] != ActiveKeys[b]
  {
  }

  /** No name gets two chips. */
  lemma ActiveDistinct(p: Params)
    ensures forall i, j | 0 <= i < j < |Active(p)| :: Active(p)[i].key != Active(p)[j].key
  {
    var chips := Active(p);
    ActiveKeysDistinct();
    forall i, j | 0 <= i < j < |chips| ensures chips[i].key != chips[j].key {
      var x, y :| 0 <= x < y < |ActiveKeys| && ActiveKeys[x] == chips[i].key && ActiveKeys[y] == chips[j].key;
    }
  }

  /** The bar is rendered only when some chip name is present. */
  function Rendered(p: Params): (shown: bool)
    ensures shown <==> exists k | k in ActiveKeys :: Has(p, k)
  {
    var chips := Active(p);
    if chips != [] then assert chips[0].key in ActiveKeys && Has(p, chips[0].key); true
    else false
  }

  /** The text of a chip: price bounds carry the taka sign, other values are
      shown as they are. */
  function ChipText(c: Chip): (text: string)
    ensures c.key == "minPrice" || c.key == "maxPrice" ==> text == [Taka] + c.value
    ensures c.key != "minPrice" && c.key != "maxPrice" ==> text == c.value
  {
    if c.key == "minPrice" then [Taka] + c.value
    else if c.key == "maxPrice" then [Taka] + c.value
    else c.value
  }

  /** Every chip has a caption. */
  lemma ChipsHaveLabels(p: Params)
    ensures forall c | c in Active(p) :: c.key in FilterLabels
  {
  }

  /** `remove(k)`: the copy loses every `k` and every `page`; the chip for `k`
      disappears and nothing else changes. */
  method Remove(params: Params, k: string) returns (pushed: Params)
    ensures !Has(pushed, k) && !Has(pushed, "page")
    ensures forall k' | k' != k && k' != "page" :: Get(pushed, k') == Get(params, k') && Count(pushed, k') == Count(params, k')
    ensures forall c | c in Active(pushed) :: c.key != k
  {
    var p := params;
    p := Delete(p, k);
    p := Delete(p, "page");
    pushed := p;
  }

  /** The sidebar's badge and the chip bar disagree on empty values: a filter
      present with an empty value gets a chip but is not counted. */
  lemma EmptyValueCounted()
    ensures |Active([Entry("color", "")])| == 1
    ensures FilterSideBar.ActiveCount([Entry("color", "")]) == 0
  {
    var p := [Entry("color", "")];
    assert Get(p, "color") == Some("");
    forall k | k != "color" ensures !Has(p, k) {
      assert p[0].key != k;
    }
    assert "color" in ActiveKeys;
    OneChip(p, "color");
  }

  /** A list holding only one chip name, and holding it, shows one chip. */
  lemma OneChip(p: Params, k: string)
    requires k in ActiveKeys && Has(p, k)
    requires forall k' | k' != k :: !Has(p, k')
    ensures |Active(p)| == 1
  {
    var chips := Active(p);
    ActiveDistinct(p);
    assert |chips| >= 2 ==> chips[0].key == k == chips[1].key;
  }
}
