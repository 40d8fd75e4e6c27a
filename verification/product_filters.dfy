/** The product list page's filters: category, sizes, the two availability
    check boxes and the name search, applied one after another to the fetched
    products, together with the size toggle and the availability counts. */
module ProductFilters {
  import opened Wrappers
  import opened Catalog

  // ---------------------------------------------------------------------------
  // Case-insensitive search

  /** `toLowerCase` on one character, for the ASCII letters. */
  function LowerChar(c: char): char {
    if 'A' <= c <= 'Z' then (c as int + 32) as char else c
  }

  function Lower(s: string): (r: string)
    ensures |r| == |s|
    ensures forall i :: 0 <= i < |s| ==> r[i] == LowerChar(s[i])
  {
    seq(|s|, i requires 0 <= i < |s| => LowerChar(s[i]))
  }

  /** Lower-casing an already lower-cased string changes nothing. */
  lemma LowerIdempotent(s: string)
    ensures Lower(Lower(s)) == Lower(s)
  {
  }

  /** The name stage ignores the case of the query: a query and its lower-cased
      form keep the same products. */
  lemma NameMatchIgnoresQueryCase(q: string, p: Product)
    ensures Holds(NameMatches(Lower(q)), p) == Holds(NameMatches(q), p)
  {
    LowerIdempotent(q);
  }

  /** `hay.includes(needle)`: `needle` occurs in `hay` at some position. */
  predicate Contains(hay: string, needle: string)
    decreases |hay|
  {
    (|needle| <= |hay| && hay[..|needle|] == needle) || (hay != [] && Contains(hay[1..], needle))
  }

  // ---------------------------------------------------------------------------
  // The filters

  /** The page's filter settings. */
  datatype Filters = Filters(
    category: string,
    sizes: seq<string>,
    available: bool,
    outOfStock: bool,
    search: string)

  /** Category "ALL", no sizes, only the "Available" box ticked, empty search. */
  const DefaultFilters := Filters("ALL", [], true, false, "")

  /** One `filter` stage of the pipeline. */
  datatype Criterion =
    | InCategory(category: string)
    | HasSizeIn(sizes: seq<string>)
    | OutOfStock
    | InStock
    | NameMatches(query: string)

  predicate Holds(c: Criterion, p: Product) {
    match c
    case InCategory(cat) => p.category == cat
    case HasSizeIn(sel) => p.sizes.Some? && exists s :: s in p.sizes.value && s in sel
    case OutOfStock => p.stock == 0
    case InStock => p.stock > 0
    case NameMatches(q) => Contains(Lower(p.name), Lower(q))
  }

  /** `products.filter(p => Holds(c, p))`: keeps, in order, exactly the products
      that satisfy the criterion. */
  function Keep(ps: seq<Product>, c: Criterion): (r: seq<Product>)
    ensures |r| <= |ps|
    ensures forall k :: 0 <= k < |r| ==> Holds(c, r[k]) && r[k] in ps
  {
    if ps == [] then [] else (if Holds(c, ps[0]) then [ps[0]] else []) + Keep(ps[1..], c)
  }

  /** A product is kept by a stage exactly when it is in the input and
      satisfies the stage's criterion. */
  lemma {:induction false} KeepMembers(ps: seq<Product>, c: Criterion)
    ensures forall p :: p in Keep(ps, c) <==> p in ps && Holds(c, p)
  {
    if ps != [] {
      KeepMembers(ps[1..], c);
      assert ps == [ps[0]] + ps[1..];
    }
  }

  /** A stage that runs only when its setting is active. */
  function Stage(ps: seq<Product>, active: bool, c: Criterion): seq<Product> {
    if active then Keep(ps, c) else ps
  }

  /** The filter effect: the stages in the page's order. */
  function ApplyFilters(ps: seq<Product>, f: Filters): seq<Product> {
    var byCategory := Stage(ps, f.category != "ALL", InCategory(f.category));
    var bySize := Stage(byCategory, |f.sizes| > 0, HasSizeIn(f.sizes));
    var notInStock := Stage(bySize, !f.available, OutOfStock);
    var notOutOfStock := Stage(notInStock, !f.outOfStock, InStock);
    Stage(notOutOfStock, |f.search| > 0, NameMatches(f.search))
  }

  /** A product passes the settings: every active stage's criterion holds of it. */
  predicate Passes(p: Product, f: Filters) {
    && (f.category != "ALL" ==> Holds(InCategory(f.category), p))
    && (|f.sizes| > 0 ==> Holds(HasSizeIn(f.sizes), p))
    && (!f.available ==> Holds(OutOfStock, p))
    && (!f.outOfStock ==> Holds(InStock, p))
    && (|f.search| > 0 ==> Holds(NameMatches(f.search), p))
  }

  /** The reference definition: one pass keeping the products that pass. */
  function Select(ps: seq<Product>, f: Filters): seq<Product> {
    if ps == [] then [] else (if Passes(ps[0], f) then [ps[0]] else []) + Select(ps[1..], f)
  }

  /** `a` can be obtained from `b` by deleting elements. */
  predicate IsSubsequence(a: seq<Product>, b: seq<Product>)
    decreases |b|
  {
    a == [] || (b != [] && ((a[0] == b[0] && IsSubsequence(a[1..], b[1..])) || IsSubsequence(a, b[1..])))
  }

  // ---------------------------------------------------------------------------
  // The pipeline is the single pass

  lemma {:induction false} KeepAppend(a: seq<Product>, b: seq<Product>, c: Criterion)
    ensures Keep(a + b, c) == Keep(a, c) + Keep(b, c)
  {
    if a == [] {
      assert a + b == b;
    } else {
      var h := if Holds(c, a[0]) then [a[0]] else [];
      assert (a + b)[0] == a[0];
      assert (a + b)[1..] == a[1..] + b;
      calc {
        Keep(a + b, c);
        h + Keep(a[1..] + b, c);
        { KeepAppend(a[1..], b, c); }
        h + (Keep(a[1..], c) + Keep(b, c));
        (h + Keep(a[1..], c)) + Keep(b, c);
        Keep(a, c) + Keep(b, c);
      }
    }
  }

  lemma StageAppend(a: seq<Product>, b: seq<Product>, active: bool, c: Criterion)
    ensures Stage(a + b, active, c) == Stage(a, active, c) + Stage(b, active, c)
  {
    if active {
      KeepAppend(a, b, c);
    }
  }

  /** The filter effect distributes over concatenation. */
  lemma ApplyFiltersAppend(a: seq<Product>, b: seq<Product>, f: Filters)
    ensures ApplyFilters(a + b, f) == ApplyFilters(a, f) + ApplyFilters(b, f)
  {
    var c1, c2, c3, c4, c5 := InCategory(f.category), HasSizeIn(f.sizes), OutOfStock, InStock, NameMatches(f.search);
    var t1, t2, t3, t4 := f.category != "ALL", |f.sizes| > 0, !f.available, !f.outOfStock;
    StageAppend(a, b, t1, c1);
    var a1, b1 := Stage(a, t1, c1), Stage(b, t1, c1);
    StageAppend(a1, b1, t2, c2);
    var a2, b2 := Stage(a1, t2, c2), Stage(b1, t2, c2);
    StageAppend(a2, b2, t3, c3);
    var a3, b3 := Stage(a2, t3, c3), Stage(b2, t3, c3);
    StageAppend(a3, b3, t4, c4);
    var a4, b4 := Stage(a3, t4, c4), Stage(b3, t4, c4);
    StageAppend(a4, b4, |f.search| > 0, c5);
  }

  lemma StageSingle(p: Product, active: bool, c: Criterion)
    ensures Stage([p], active, c) == if !active || Holds(c, p) then [p] else []
  {
    assert [p][1..] == [];
  }

  lemma StageEmpty(active: bool, c: Criterion)
    ensures Stage([], active, c) == []
  {
  }

  /** On a single product the filter effect keeps it exactly when it passes. */
  lemma ApplyFiltersSingle(p: Product, f: Filters)
    ensures ApplyFilters([p], f) == if Passes(p, f) then [p] else []
  {
    var c1, c2, c3, c4, c5 := InCategory(f.category), HasSizeIn(f.sizes), OutOfStock, InStock, NameMatches(f.search);
    var t1, t2, t3, t4, t5 := f.category != "ALL", |f.sizes| > 0, !f.available, !f.outOfStock, |f.search| > 0;
    StageSingle(p, t1, c1);
    StageEmpty(t2, c2); StageEmpty(t3, c3); StageEmpty(t4, c4); StageEmpty(t5, c5);
    if !t1 || Holds(c1, p) {
      StageSingle(p, t2, c2);
      if !t2 || Holds(c2, p) {
        StageSingle(p, t3, c3);
        if !t3 || Holds(c3, p) {
          StageSingle(p, t4, c4);
          if !t4 || Holds(c4, p) {
            StageSingle(p, t5, c5);
          }
        }
      }
    }
  }

  /** The stage-by-stage filter effect equals the single pass by `Passes`. */
  lemma {:induction false} ApplyFiltersIsSelect(ps: seq<Product>, f: Filters)
    ensures ApplyFilters(ps, f) == Select(ps, f)
  {
    if ps != [] {
      var head, tail := [ps[0]], ps[1..];
      assert ps == head + tail;
      calc {
        ApplyFilters(ps, f);
        { ApplyFiltersAppend(head, tail, f); }
        ApplyFilters(head, f) + ApplyFilters(tail, f);
        { ApplyFiltersSingle(ps[0], f); ApplyFiltersIsSelect(tail, f); }
        (if Passes(ps[0], f) then head else []) + Select(tail, f);
      }
    }
  }

  lemma {:induction false} SelectIsSubsequence(ps: seq<Product>, f: Filters)
    ensures IsSubsequence(Select(ps, f), ps)
  {
    if ps != [] {
      SelectIsSubsequence(ps[1..], f);
      if Passes(ps[0], f) {
        assert Select(ps, f) == [ps[0]] + Select(ps[1..], f);
        assert Select(ps, f)[0] == ps[0] && Select(ps, f)[1..] == Select(ps[1..], f);
      } else {
        assert Select(ps, f) == Select(ps[1..], f);
        assert IsSubsequence(Select(ps, f), ps[1..]);
      }
    }
  }

  lemma {:induction false} SubsequenceIsShorter(a: seq<Product>, b: seq<Product>)
    requires IsSubsequence(a, b)
    ensures |a| <= |b|
    decreases |b|
  {
    if a != [] {
      if a[0] == b[0] && IsSubsequence(a[1..], b[1..]) {
        SubsequenceIsShorter(a[1..], b[1..]);
      } else {
        SubsequenceIsShorter(a, b[1..]);
      }
    }
  }

  lemma {:induction false} SelectMembers(ps: seq<Product>, f: Filters)
    ensures forall p :: p in Select(ps, f) <==> p in ps && Passes(p, f)
  {
    if ps != [] {
      SelectMembers(ps[1..], f);
      assert ps == [ps[0]] + ps[1..];
    }
  }

  /** The filtered list keeps the products' relative order (it is a subsequence
      of the list), is no longer than it, and holds exactly the products that
      pass every active filter. */
  lemma FilteredIsSubsequence(ps: seq<Product>, f: Filters)
    ensures IsSubsequence(ApplyFilters(ps, f), ps)
    ensures |ApplyFilters(ps, f)| <= |ps|
    ensures forall p :: p in ApplyFilters(ps, f) <==> p in ps && Passes(p, f)
  {
    ApplyFiltersIsSelect(ps, f);
    SelectIsSubsequence(ps, f);
    SubsequenceIsShorter(Select(ps, f), ps);
    SelectMembers(ps, f);
  }

  /** What each active filter guarantees of every product kept: the selected
      category; a listed size among the selected ones (so products without
      sizes are dropped); zero stock without "Available"; positive stock
      without "Out Of Stock"; a name containing the query, ignoring case. */
  lemma KeptProductsMatch(ps: seq<Product>, f: Filters, p: Product)
    requires p in ApplyFilters(ps, f)
    ensures f.category != "ALL" ==> p.category == f.category
    ensures |f.sizes| > 0 ==> p.sizes.Some? && exists s :: s in p.sizes.value && s in f.sizes
    ensures !f.available ==> p.stock == 0
    ensures !f.outOfStock ==> p.stock > 0
    ensures |f.search| > 0 ==> Contains(Lower(p.name), Lower(f.search))
  {
    ApplyFiltersIsSelect(ps, f);
    SelectMembers(ps, f);
    assert Passes(p, f);
  }

  // ---------------------------------------------------------------------------
  // Special settings

  lemma {:induction false} SelectAll(ps: seq<Product>, f: Filters)
    requires forall p :: p in ps ==> Passes(p, f)
    ensures Select(ps, f) == ps
  {
    if ps != [] {
      assert ps[0] in ps;
      assert forall p :: p in ps[1..] ==> p in ps;
      SelectAll(ps[1..], f);
    }
  }

  lemma {:induction false} SelectNone(ps: seq<Product>, f: Filters)
    requires forall p :: p in ps ==> !Passes(p, f)
    ensures Select(ps, f) == []
  {
    if ps != [] {
      assert ps[0] in ps;
      assert forall p :: p in ps[1..] ==> p in ps;
      SelectNone(ps[1..], f);
    }
  }

  lemma {:induction false} SelectIsKeep(ps: seq<Product>, f: Filters, c: Criterion)
    requires forall p :: p in ps ==> (Passes(p, f) <==> Holds(c, p))
    ensures Select(ps, f) == Keep(ps, c)
  {
    if ps != [] {
      assert ps[0] in ps;
      assert forall p :: p in ps[1..] ==> p in ps;
      SelectIsKeep(ps[1..], f, c);
    }
  }

  /** With category "ALL", no sizes and no search, the two check boxes decide:
      both ticked keeps everything, only "Available" keeps the products in
      stock, only "Out Of Stock" keeps those with zero stock, neither keeps
      nothing. */
  lemma AvailabilityCases(ps: seq<Product>, f: Filters)
    requires f.category == "ALL" && f.sizes == [] && f.search == ""
    ensures f.available && f.outOfStock ==> ApplyFilters(ps, f) == ps
    ensures f.available && !f.outOfStock ==> ApplyFilters(ps, f) == Keep(ps, InStock)
    ensures !f.available && f.outOfStock ==> ApplyFilters(ps, f) == Keep(ps, OutOfStock)
    ensures !f.available && !f.outOfStock ==> ApplyFilters(ps, f) == []
  {
    ApplyFiltersIsSelect(ps, f);
    if f.available && f.outOfStock {
      SelectAll(ps, f);
    } else if f.available {
      SelectIsKeep(ps, f, InStock);
    } else if f.outOfStock {
      SelectIsKeep(ps, f, OutOfStock);
    } else {
      SelectNone(ps, f);
    }
  }

  /** The page's initial settings show exactly the products in stock. */
  lemma DefaultShowsInStock(ps: seq<Product>)
    ensures ApplyFilters(ps, DefaultFilters) == Keep(ps, InStock)
    ensures forall p :: p in ApplyFilters(ps, DefaultFilters) <==> p in ps && p.stock > 0
  {
    AvailabilityCases(ps, DefaultFilters);
    FilteredIsSubsequence(ps, DefaultFilters);
  }

  /** The search only narrows what the other filters keep: with query `q` a
      product is kept exactly when it is kept without a query and, for a
      non-empty `q`, its lower-cased name contains the lower-cased `q`. An empty
      query therefore keeps everything. */
  lemma SearchNarrows(ps: seq<Product>, f: Filters, q: string)
    ensures forall p :: p in ApplyFilters(ps, f.(search := q)) <==>
      p in ApplyFilters(ps, f.(search := "")) && (|q| > 0 ==> Contains(Lower(p.name), Lower(q)))
  {
    FilteredIsSubsequence(ps, f.(search := q));
    FilteredIsSubsequence(ps, f.(search := ""));
  }

  // ---------------------------------------------------------------------------
  // Size toggling

  /** `prev.filter(s => s !== size)`. */
  function RemoveSize(sel: seq<string>, size: string): (r: seq<string>)
    ensures forall s :: s in r <==> s in sel && s != size
  {
    if sel == [] then [] else (if sel[0] == size then [] else [sel[0]]) + RemoveSize(sel[1..], size)
  }

  /** `toggleSize`: drop the size if it is selected, otherwise append it. The
      size's membership flips and every other size keeps its membership. */
  function ToggleSize(sel: seq<string>, size: string): (r: seq<string>)
    ensures size in r <==> size !in sel
    ensures forall s :: s != size ==> (s in r <==> s in sel)
  {
    if size in sel then RemoveSize(sel, size) else sel + [size]
  }

  /** Toggling the same size twice restores which sizes are selected; on a
      selection without that size it restores the selection itself. */
  lemma ToggleTwice(sel: seq<string>, size: string)
    ensures forall s :: s in ToggleSize(ToggleSize(sel, size), size) <==> s in sel
    ensures size !in sel ==> ToggleSize(ToggleSize(sel, size), size) == sel
  {
    if size !in sel {
      RemoveLastOnly(sel + [size], size, |sel|);
    }
  }

  /** Removing a size that occurs only as the last element gives back the rest. */
  lemma {:induction false} RemoveLastOnly(sel: seq<string>, size: string, n: nat)
    requires n < |sel| && n == |sel| - 1 && sel[n] == size && size !in sel[..n]
    ensures RemoveSize(sel, size) == sel[..n]
    decreases n
  {
    if n > 0 {
      assert sel[0] != size by { assert sel[0] == sel[..n][0]; }
      assert sel[1..][..n - 1] == sel[..n][1..];
      RemoveLastOnly(sel[1..], size, n - 1);
    }
  }

  /** Filters that agree on every product give the same list. */
  lemma {:induction false} SelectCongruent(ps: seq<Product>, f: Filters, g: Filters)
    requires forall p :: Passes(p, f) == Passes(p, g)
    ensures Select(ps, f) == Select(ps, g)
  {
    if ps != [] {
      SelectCongruent(ps[1..], f, g);
    }
  }

  /** Toggling a size twice leaves the filtered list unchanged. */
  lemma ToggleTwiceSameList(ps: seq<Product>, f: Filters, size: string)
    ensures ApplyFilters(ps, f.(sizes := ToggleSize(ToggleSize(f.sizes, size), size))) == ApplyFilters(ps, f)
  {
    var g := f.(sizes := ToggleSize(ToggleSize(f.sizes, size), size));
    ToggleTwice(f.sizes, size);
    assert |g.sizes| > 0 <==> |f.sizes| > 0 by {
      if |f.sizes| > 0 { assert f.sizes[0] in g.sizes; }
      if |g.sizes| > 0 { assert g.sizes[0] in f.sizes; }
    }
    SelectCongruent(ps, f, g);
    ApplyFiltersIsSelect(ps, f);
    ApplyFiltersIsSelect(ps, g);
  }

  // ---------------------------------------------------------------------------
  // Availability counts

  /** The numbers next to the "Available" and "Out Of Stock" boxes. */
  function AvailableCount(ps: seq<Product>): nat { |Keep(ps, InStock)| }
  function OutOfStockCount(ps: seq<Product>): nat { |Keep(ps, OutOfStock)| }

  /** Every product is counted by exactly one of the two boxes. */
  lemma {:induction false} CountsAddUp(ps: seq<Product>)
    ensures AvailableCount(ps) + OutOfStockCount(ps) == |ps|
  {
    if ps != [] {
      CountsAddUp(ps[1..]);
    }
  }
}
