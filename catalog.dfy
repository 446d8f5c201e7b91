/**
 * The local catalog database of the point of sale (`SPOSLocalDB`): dictionaries
 * from product id, barcode and category id to products, from category id and
 * parent id to categories, from partner id to partners, and a lower-case search
 * string per product scanned by a linear substring search.
 *
 * JavaScript enumerates the array-index keys of a plain object (integers below
 * 2^32 - 1) in ascending numeric order; the class keeps that order explicitly
 * in `productIds` and `categoryIds`, for every natural-number key.
 */
module Catalog {
  import opened Wrappers
  import opened Text

  // ---------------------------------------------------------------------------
  // Records
  // ---------------------------------------------------------------------------

  /** A product record. An absent optional string is the empty string: both are falsy. */
  datatype Product = Product(
    id: nat,
    displayName: string,
    lstPrice: real,
    standardPrice: real,
    categId: nat,
    categName: string,
    taxesId: seq<nat>,
    barcode: string,
    defaultCode: string,
    qtyAvailable: real)

  /** `parent_id`: absent, a boolean (`false` for a root), or an `[id, name]` pair. */
  datatype ParentRef = NoParent | ParentFlag(flag: bool) | ParentPair(parentId: nat, parentName: string)

  datatype Category = Category(id: nat, name: string, parent: ParentRef)

  datatype Partner = Partner(id: nat, name: string, email: string, phone: string, barcode: string, points: Option<real>)

  /** The key a category is filed under in the children index: its parent's id
      when `parent_id` is a pair (even a pair whose id is 0), the root 0 otherwise. */
  function ParentKey(c: Category): nat
  {
    if c.parent.ParentPair? then c.parent.parentId else 0
  }

  // ---------------------------------------------------------------------------
  // Search strings
  // ---------------------------------------------------------------------------

  /** One `'|' + field` part of a search string, present only when the field is non-empty. */
  function Part(field: string): string
  {
    if field == "" then "" else "|" + field
  }

  /** The '|'-separated parts of a product's search string before lower-casing:
      barcode, internal reference and display name (colons removed), each only
      when non-empty. */
  function SearchParts(p: Product): string
  {
    Part(p.barcode) + Part(p.defaultCode) + NamePart(p.displayName)
  }

  /** The display-name part: present whenever the name is non-empty, even when
      it consists of colons only. */
  function NamePart(name: string): string
  {
    if name == "" then "" else "|" + RemoveColons(name)
  }

  /** The search string of a product: its search parts, lower-cased. */
  function SearchString(p: Product): string
  {
    Lower(SearchParts(p))
  }

  /** A lower-cased part occurs in the lower-cased concatenation it sits in. */
  lemma LowerOccursInMiddle(a: string, b: string, c: string)
    ensures Occurs(Lower(a + b + c), Lower(b))
  {
    LowerAppend(a, b);
    LowerAppend(a + b, c);
    OccursInMiddle(Lower(a), Lower(b), Lower(c));
  }

  /** Searching for a product's barcode, in any case, finds it. */
  lemma SearchStringHasBarcode(p: Product)
    requires p.barcode != ""
    ensures Occurs(SearchString(p), Lower(p.barcode))
  {
    var rest := Part(p.defaultCode) + NamePart(p.displayName);
    assert SearchParts(p) == "|" + p.barcode + rest;
    LowerOccursInMiddle("|", p.barcode, rest);
  }

  /** Searching for a product's internal reference, in any case, finds it. */
  lemma SearchStringHasDefaultCode(p: Product)
    requires p.defaultCode != ""
    ensures Occurs(SearchString(p), Lower(p.defaultCode))
  {
    var front := Part(p.barcode) + "|";
    var name := NamePart(p.displayName);
    assert SearchParts(p) == front + p.defaultCode + name;
    LowerOccursInMiddle(front, p.defaultCode, name);
  }

  /** Searching for a product's display name without its colons, in any case, finds it. */
  lemma SearchStringHasName(p: Product)
    requires p.displayName != ""
    ensures Occurs(SearchString(p), Lower(RemoveColons(p.displayName)))
  {
    var front := Part(p.barcode) + Part(p.defaultCode) + "|";
    var name := RemoveColons(p.displayName);
    assert SearchParts(p) == front + name + "";
    LowerOccursInMiddle(front, name, "");
  }

  /** The search string is empty exactly when barcode, reference and name all are. */
  lemma SearchStringEmpty(p: Product)
    ensures SearchString(p) == "" <==> p.barcode == "" && p.defaultCode == "" && p.displayName == ""
  {
  }

  /** The search string is already lower case. */
  lemma SearchStringIsLower(p: Product)
    ensures Lower(SearchString(p)) == SearchString(p)
  {
    LowerIdempotent(SearchParts(p));
  }

  // ---------------------------------------------------------------------------
  // Ascending key enumerations
  // ---------------------------------------------------------------------------

  predicate StrictlyIncreasing(ks: seq<nat>)
  {
    forall i, j :: 0 <= i < j < |ks| ==> ks[i] < ks[j]
  }

  /** `ks` lists the keys `keys` in ascending order, each once: the order in
      which JavaScript enumerates integer keys of an object. */
  ghost predicate Enumerates(ks: seq<nat>, keys: set<nat>)
  {
    StrictlyIncreasing(ks) && forall k :: k in ks <==> k in keys
  }

  /** Puts `k` in its ascending position, unless it is already there. */
  function InsertSorted(ks: seq<nat>, k: nat): (r: seq<nat>)
    requires StrictlyIncreasing(ks)
    ensures StrictlyIncreasing(r)
    ensures forall x :: x in r <==> x in ks || x == k
  {
    if ks == [] then [k]
    else if k < ks[0] then [k] + ks
    else if k == ks[0] then ks
    else
      var rest := InsertSorted(ks[1..], k);
      assert forall i :: 0 <= i < |rest| ==> ks[0] < rest[i] by {
        forall i | 0 <= i < |rest| ensures ks[0] < rest[i] {
          assert rest[i] in rest;
          if rest[i] != k {
            var j :| 0 <= j < |ks[1..]| && ks[1..][j] == rest[i];
            assert ks[j + 1] == rest[i];
          }
        }
      }
      [ks[0]] + rest
  }

  /** There is only one ascending enumeration of a key set. */
  lemma {:induction false} EnumerationUnique(a: seq<nat>, b: seq<nat>, keys: set<nat>)
    requires Enumerates(a, keys) && Enumerates(b, keys)
    ensures a == b
    decreases |a|
  {
    EnumerationSize(a, keys);
    EnumerationSize(b, keys);
    if a != [] {
      assert a[0] in b;
      assert b[0] in a;
      assert a[0] == b[0];
      var rest := keys - {a[0]};
      forall k ensures k in a[1..] <==> k in rest {
        if k in a[1..] { assert k != a[0]; }
        if k in rest && k in a { assert k != a[0]; }
      }
      forall k ensures k in b[1..] <==> k in rest {
        if k in b[1..] { assert k != b[0]; }
        if k in rest && k in b { assert k != b[0]; }
      }
      EnumerationUnique(a[1..], b[1..], rest);
    }
  }

  /** An enumeration has one entry per key. */
  lemma {:induction false} EnumerationSize(ks: seq<nat>, keys: set<nat>)
    requires Enumerates(ks, keys)
    ensures |ks| == |keys|
    decreases |ks|
  {
    if ks != [] {
      var rest := keys - {ks[0]};
      forall k ensures k in ks[1..] <==> k in rest {
        if k in ks[1..] { assert k != ks[0]; }
        if k in rest && k in ks { assert k != ks[0]; }
      }
      EnumerationSize(ks[1..], rest);
    } else {
      assert forall k :: k !in keys;
      assert keys == {};
    }
  }

  // ---------------------------------------------------------------------------
  // What each `add_*` loop does to each dictionary, one record at a time
  // ---------------------------------------------------------------------------

  /** The list stored under `k`, or `[]` when there is none. */
  function Lookup(m: map<nat, seq<nat>>, k: nat): seq<nat>
  {
    if k in m then m[k] else []
  }

  /** `product_by_id` after storing each product in turn. */
  ghost function IndexById(m: map<nat, Product>, ps: seq<Product>): map<nat, Product>
    decreases |ps|
  {
    if ps == [] then m
    else
      var p := ps[|ps| - 1];
      IndexById(m, ps[..|ps| - 1])[p.id := p]
  }

  /** `product_by_barcode` after storing each product with a non-empty barcode. */
  ghost function IndexByBarcode(m: map<string, Product>, ps: seq<Product>): map<string, Product>
    decreases |ps|
  {
    if ps == [] then m
    else
      var p := ps[|ps| - 1];
      var before := IndexByBarcode(m, ps[..|ps| - 1]);
      if p.barcode != "" then before[p.barcode := p] else before
  }

  /** `product_by_category_id` after pushing each product's id onto its category's list. */
  ghost function IndexByCategory(m: map<nat, seq<nat>>, ps: seq<Product>): map<nat, seq<nat>>
    decreases |ps|
  {
    if ps == [] then m
    else
      var p := ps[|ps| - 1];
      var before := IndexByCategory(m, ps[..|ps| - 1]);
      before[p.categId := Lookup(before, p.categId) + [p.id]]
  }

  /** `product_search_string` after storing each product's search string. */
  ghost function IndexSearch(m: map<nat, string>, ps: seq<Product>): map<nat, string>
    decreases |ps|
  {
    if ps == [] then m
    else
      var p := ps[|ps| - 1];
      IndexSearch(m, ps[..|ps| - 1])[p.id := SearchString(p)]
  }

  /** `category_by_id` after storing each category in turn. */
  ghost function CategoriesById(m: map<nat, Category>, cs: seq<Category>): map<nat, Category>
    decreases |cs|
  {
    if cs == [] then m
    else
      var c := cs[|cs| - 1];
      CategoriesById(m, cs[..|cs| - 1])[c.id := c]
  }

  /** `category_children` after pushing each category's id onto its parent's list. */
  ghost function ChildrenIndex(m: map<nat, seq<nat>>, cs: seq<Category>): map<nat, seq<nat>>
    decreases |cs|
  {
    if cs == [] then m
    else
      var c := cs[|cs| - 1];
      var before := ChildrenIndex(m, cs[..|cs| - 1]);
      before[ParentKey(c) := Lookup(before, ParentKey(c)) + [c.id]]
  }

  /** `partner_by_id` after storing each partner in turn. */
  ghost function PartnersById(m: map<nat, Partner>, ps: seq<Partner>): map<nat, Partner>
    decreases |ps|
  {
    if ps == [] then m
    else
      var p := ps[|ps| - 1];
      PartnersById(m, ps[..|ps| - 1])[p.id := p]
  }

  /** Loading one more product extends each product fold by that product. */
  lemma ProductFoldsStep(byId: map<nat, Product>, byBarcode: map<string, Product>,
    byCategory: map<nat, seq<nat>>, search: map<nat, string>, ps: seq<Product>, i: nat)
    requires i < |ps|
    ensures var p, done := ps[i], ps[..i];
      && IndexById(byId, ps[..i + 1]) == IndexById(byId, done)[p.id := p]
      && IndexByBarcode(byBarcode, ps[..i + 1]) ==
        (if p.barcode != "" then IndexByBarcode(byBarcode, done)[p.barcode := p] else IndexByBarcode(byBarcode, done))
      && IndexByCategory(byCategory, ps[..i + 1]) ==
        IndexByCategory(byCategory, done)[p.categId := Lookup(IndexByCategory(byCategory, done), p.categId) + [p.id]]
      && IndexSearch(search, ps[..i + 1]) == IndexSearch(search, done)[p.id := SearchString(p)]
  {
    assert ps[..i + 1][..i] == ps[..i];
  }

  /** Loading one more category extends each category fold by that category. */
  lemma CategoryFoldsStep(byId: map<nat, Category>, children: map<nat, seq<nat>>, cs: seq<Category>, i: nat)
    requires i < |cs|
    ensures var c, done := cs[i], cs[..i];
      && CategoriesById(byId, cs[..i + 1]) == CategoriesById(byId, done)[c.id := c]
      && ChildrenIndex(children, cs[..i + 1]) ==
        ChildrenIndex(children, done)[ParentKey(c) := Lookup(ChildrenIndex(children, done), ParentKey(c)) + [c.id]]
  {
    assert cs[..i + 1][..i] == cs[..i];
  }

  // ---------------------------------------------------------------------------
  // Reference definitions the folds are proved against
  // ---------------------------------------------------------------------------

  /** The ids of the products of `ps` whose category is `c`, in load order. */
  ghost function IdsInCategory(ps: seq<Product>, c: nat): seq<nat>
    decreases |ps|
  {
    if ps == [] then []
    else
      var p := ps[|ps| - 1];
      IdsInCategory(ps[..|ps| - 1], c) + (if p.categId == c then [p.id] else [])
  }

  /** The ids of the categories of `cs` filed under parent `k`, in load order. */
  ghost function ChildIdsOf(cs: seq<Category>, k: nat): seq<nat>
    decreases |cs|
  {
    if cs == [] then []
    else
      var c := cs[|cs| - 1];
      ChildIdsOf(cs[..|cs| - 1], k) + (if ParentKey(c) == k then [c.id] else [])
  }

  // ---------------------------------------------------------------------------
  // Properties of loading
  // ---------------------------------------------------------------------------

  /** After loading `ps`, the product stored under an id is the last product of
      `ps` with that id. */
  lemma {:induction false} ByIdLastAdded(m: map<nat, Product>, ps: seq<Product>, i: nat)
    requires i < |ps|
    requires forall j :: i < j < |ps| ==> ps[j].id != ps[i].id
    ensures ps[i].id in IndexById(m, ps) && IndexById(m, ps)[ps[i].id] == ps[i]
    decreases |ps|
  {
    if i < |ps| - 1 {
      var init := ps[..|ps| - 1];
      assert forall j :: i < j < |init| ==> init[j] == ps[j];
      ByIdLastAdded(m, init, i);
    }
  }

  /** Loading products none of which has id `id` leaves the lookup of `id` as it was. */
  lemma {:induction false} ByIdUntouched(m: map<nat, Product>, ps: seq<Product>, id: nat)
    requires forall j :: 0 <= j < |ps| ==> ps[j].id != id
    ensures (id in IndexById(m, ps)) == (id in m)
    ensures id in m ==> IndexById(m, ps)[id] == m[id]
    decreases |ps|
  {
    if ps != [] {
      ByIdUntouched(m, ps[..|ps| - 1], id);
    }
  }

  /** Loading products none of which carries barcode `b` leaves the entry for `b` as it was. */
  lemma {:induction false} ByBarcodeUntouched(m: map<string, Product>, ps: seq<Product>, b: string)
    requires forall j :: 0 <= j < |ps| ==> ps[j].barcode != b
    ensures (b in IndexByBarcode(m, ps)) == (b in m)
    ensures b in m ==> IndexByBarcode(m, ps)[b] == m[b]
    decreases |ps|
  {
    if ps != [] {
      ByBarcodeUntouched(m, ps[..|ps| - 1], b);
    }
  }

  /** After loading `ps`, a non-empty barcode finds the last product of `ps`
      carrying it. */
  lemma {:induction false} ByBarcodeLastAdded(m: map<string, Product>, ps: seq<Product>, i: nat)
    requires i < |ps| && ps[i].barcode != ""
    requires forall j :: i < j < |ps| ==> ps[j].barcode != ps[i].barcode
    ensures ps[i].barcode in IndexByBarcode(m, ps) && IndexByBarcode(m, ps)[ps[i].barcode] == ps[i]
    decreases |ps|
  {
    if i < |ps| - 1 {
      var init := ps[..|ps| - 1];
      assert forall j :: i < j < |init| ==> init[j] == ps[j];
      ByBarcodeLastAdded(m, init, i);
    }
  }

  /** The empty barcode is never indexed by loading. */
  lemma {:induction false} EmptyBarcodeNotIndexed(m: map<string, Product>, ps: seq<Product>)
    ensures ("" in IndexByBarcode(m, ps)) == ("" in m)
    decreases |ps|
  {
    if ps != [] {
      EmptyBarcodeNotIndexed(m, ps[..|ps| - 1]);
    }
  }

  /** Loading appends, to the list of every category, the ids of the loaded
      products of that category in load order, and changes no other list. */
  lemma {:induction false} ByCategoryAppends(m: map<nat, seq<nat>>, ps: seq<Product>, c: nat)
    ensures Lookup(IndexByCategory(m, ps), c) == Lookup(m, c) + IdsInCategory(ps, c)
    ensures (c in IndexByCategory(m, ps)) == (c in m || IdsInCategory(ps, c) != [])
    decreases |ps|
  {
    if ps != [] {
      ByCategoryAppends(m, ps[..|ps| - 1], c);
    }
  }

  /** Loading the same product twice lists it twice in its category. */
  lemma LoadTwiceListsTwice(m: map<nat, seq<nat>>, p: Product)
    ensures Lookup(IndexByCategory(m, [p, p]), p.categId) == Lookup(m, p.categId) + [p.id, p.id]
  {
    ByCategoryAppends(m, [p, p], p.categId);
    assert [p, p][..1] == [p];
    assert [p][..0] == [];
    assert IdsInCategory([p], p.categId) == [p.id];
    assert IdsInCategory([p, p], p.categId) == [p.id, p.id];
  }

  /** Loading appends, to the children list of every parent key, the ids of
      the loaded categories filed under it in load order, and changes no other list. */
  lemma {:induction false} ChildrenAppends(m: map<nat, seq<nat>>, cs: seq<Category>, k: nat)
    ensures Lookup(ChildrenIndex(m, cs), k) == Lookup(m, k) + ChildIdsOf(cs, k)
    ensures (k in ChildrenIndex(m, cs)) == (k in m || ChildIdsOf(cs, k) != [])
    decreases |cs|
  {
    if cs != [] {
      ChildrenAppends(m, cs[..|cs| - 1], k);
    }
  }

  /** A category whose parent is the pair `[0, name]` is filed under the root,
      like a category without a parent. */
  lemma ParentZeroIsRootChild(c: Category, name: string)
    requires c.parent == ParentPair(0, name)
    ensures ParentKey(c) == ParentKey(c.(parent := NoParent))
  {
  }

  /** After loading `cs`, the category stored under an id is the last one of
      `cs` with that id. */
  lemma {:induction false} CategoryLastAdded(m: map<nat, Category>, cs: seq<Category>, i: nat)
    requires i < |cs|
    requires forall j :: i < j < |cs| ==> cs[j].id != cs[i].id
    ensures cs[i].id in CategoriesById(m, cs) && CategoriesById(m, cs)[cs[i].id] == cs[i]
    decreases |cs|
  {
    if i < |cs| - 1 {
      var init := cs[..|cs| - 1];
      assert forall j :: i < j < |init| ==> init[j] == cs[j];
      CategoryLastAdded(m, init, i);
    }
  }

  /** After loading `ps`, the partner stored under an id is the last one of
      `ps` with that id. */
  lemma {:induction false} PartnerLastAdded(m: map<nat, Partner>, ps: seq<Partner>, i: nat)
    requires i < |ps|
    requires forall j :: i < j < |ps| ==> ps[j].id != ps[i].id
    ensures ps[i].id in PartnersById(m, ps) && PartnersById(m, ps)[ps[i].id] == ps[i]
    decreases |ps|
  {
    if i < |ps| - 1 {
      var init := ps[..|ps| - 1];
      assert forall j :: i < j < |init| ==> init[j] == ps[j];
      PartnerLastAdded(m, init, i);
    }
  }

  // ---------------------------------------------------------------------------
  // Search
  // ---------------------------------------------------------------------------

  /** The stored products listed by `ids` whose search string contains `q`, in the order of `ids`. */
  ghost function Matches(byId: map<nat, Product>, ids: seq<nat>, q: string): seq<Product>
    decreases |ids|
  {
    if ids == [] then []
    else
      var before := Matches(byId, ids[..|ids| - 1], q);
      var k := ids[|ids| - 1];
      if k in byId && Occurs(SearchString(byId[k]), q) then before + [byId[k]] else before
  }

  /** The first `n` elements of `s`, or all of `s` when it is shorter. */
  function Take<T>(s: seq<T>, n: nat): seq<T>
  {
    if |s| <= n then s else s[..n]
  }

  /** The cap that stops the scan: it stops once MORE than 30 results are held. */
  const SearchCap: nat := 30

  /** What `search_product(query)` returns: nothing for the empty query,
      otherwise the matches of the lower-cased query in ascending id order,
      cut after the first 31. */
  ghost function SearchResults(byId: map<nat, Product>, ids: seq<nat>, query: string): seq<Product>
  {
    if query == "" then [] else Take(Matches(byId, ids, Lower(query)), SearchCap + 1)
  }

  /** Matching over a prefix of the ids gives a prefix of the matches. */
  lemma {:induction false} MatchesAppend(byId: map<nat, Product>, a: seq<nat>, b: seq<nat>, q: string)
    ensures Matches(byId, a + b, q) == Matches(byId, a, q) + Matches(byId, b, q)
    decreases |b|
  {
    if b == [] {
      assert a + b == a;
    } else {
      var b' := b[..|b| - 1];
      assert (a + b)[..|a + b| - 1] == a + b';
      MatchesAppend(byId, a, b', q);
    }
  }

  /** Scanning one more id extends the matches by that id's product exactly
      when the search string recorded for it contains `q`. */
  lemma ScanStep(byId: map<nat, Product>, ids: seq<nat>, i: nat, q: string, recorded: string)
    requires i < |ids| && ids[i] in byId
    requires recorded == SearchString(byId[ids[i]])
    ensures Matches(byId, ids[..i + 1], q) ==
      Matches(byId, ids[..i], q) + (if Occurs(recorded, q) then [byId[ids[i]]] else [])
  {
    assert ids[..i + 1][..i] == ids[..i];
  }

  /** A scan of the first `i` ids that stopped either at the end or once more
      than `SearchCap` matches were held has found the capped matches of all ids. */
  lemma ScanPrefixResults(byId: map<nat, Product>, ids: seq<nat>, i: nat, q: string)
    requires i <= |ids|
    requires i == |ids| || |Matches(byId, ids[..i], q)| > SearchCap
    requires |Matches(byId, ids[..i], q)| <= SearchCap + 1
    ensures Take(Matches(byId, ids, q), SearchCap + 1) == Matches(byId, ids[..i], q)
  {
    assert ids[..i] + ids[i..] == ids;
    MatchesAppend(byId, ids[..i], ids[i..], q);
  }

  /** Every match is a stored product listed in `ids` whose search string contains `q`. */
  lemma {:induction false} MatchesSound(byId: map<nat, Product>, ids: seq<nat>, q: string, p: Product)
    requires p in Matches(byId, ids, q)
    ensures exists k :: k in ids && k in byId && byId[k] == p
    ensures Occurs(SearchString(p), q)
    decreases |ids|
  {
    var init := ids[..|ids| - 1];
    if p in Matches(byId, init, q) {
      MatchesSound(byId, init, q, p);
      var k :| k in init && k in byId && byId[k] == p;
      assert k in ids;
    } else {
      assert byId[ids[|ids| - 1]] == p;
    }
  }

  /** Every stored product listed in `ids` whose search string contains `q` is a match. */
  lemma {:induction false} MatchesComplete(byId: map<nat, Product>, ids: seq<nat>, q: string, k: nat)
    requires k in ids && k in byId && Occurs(SearchString(byId[k]), q)
    ensures byId[k] in Matches(byId, ids, q)
    decreases |ids|
  {
    var init := ids[..|ids| - 1];
    if k != ids[|ids| - 1] {
      assert k in init;
      MatchesComplete(byId, init, q, k);
    }
  }

  /** Matches over an ascending id list come out in ascending id order, when
      every product is stored under its own id. */
  lemma {:induction false} MatchesAscending(byId: map<nat, Product>, ids: seq<nat>, q: string)
    requires forall x :: x in byId ==> byId[x].id == x
    requires StrictlyIncreasing(ids)
    ensures forall i, j :: 0 <= i < j < |Matches(byId, ids, q)| ==>
      Matches(byId, ids, q)[i].id < Matches(byId, ids, q)[j].id
    decreases |ids|
  {
    if ids != [] {
      var init := ids[..|ids| - 1];
      var last := ids[|ids| - 1];
      MatchesAscending(byId, init, q);
      forall p | p in Matches(byId, init, q) ensures p.id < last {
        MatchesSound(byId, init, q, p);
        var k :| k in init && k in byId && byId[k] == p;
      }
    }
  }

  /** The empty query finds nothing. */
  lemma SearchEmptyQuery(byId: map<nat, Product>, ids: seq<nat>)
    ensures SearchResults(byId, ids, "") == []
  {
  }

  /** Every result contains the lower-cased query, there are at most 31 of
      them, and they come in ascending id order. */
  lemma SearchSound(byId: map<nat, Product>, ids: seq<nat>, query: string)
    requires forall x :: x in byId ==> byId[x].id == x
    requires StrictlyIncreasing(ids)
    ensures |SearchResults(byId, ids, query)| <= SearchCap + 1
    ensures forall p :: p in SearchResults(byId, ids, query) ==>
      p.id in byId && byId[p.id] == p && Occurs(SearchString(p), Lower(query))
    ensures forall i, j :: 0 <= i < j < |SearchResults(byId, ids, query)| ==>
      SearchResults(byId, ids, query)[i].id < SearchResults(byId, ids, query)[j].id
  {
    if query != "" {
      var all := Matches(byId, ids, Lower(query));
      MatchesAscending(byId, ids, Lower(query));
      forall p | p in SearchResults(byId, ids, query)
        ensures p.id in byId && byId[p.id] == p && Occurs(SearchString(p), Lower(query))
      {
        assert p in all;
        MatchesSound(byId, ids, Lower(query), p);
      }
    }
  }

  /** When at most 31 products match a non-empty query, every listed one of them is returned. */
  lemma SearchCompleteWhenFew(byId: map<nat, Product>, ids: seq<nat>, query: string, k: nat)
    requires query != ""
    requires |Matches(byId, ids, Lower(query))| <= SearchCap + 1
    requires k in ids && k in byId && Occurs(SearchString(byId[k]), Lower(query))
    ensures byId[k] in SearchResults(byId, ids, query)
  {
    MatchesComplete(byId, ids, Lower(query), k);
  }

  // ---------------------------------------------------------------------------
  // Agreement between the dictionaries, stated on their values
  // ---------------------------------------------------------------------------

  /** Every product is stored under its own id. */
  ghost predicate ProductsUnderOwnIds(byId: map<nat, Product>)
  {
    forall id :: id in byId ==> byId[id].id == id
  }

  /** Every category is stored under its own id. */
  ghost predicate CategoriesUnderOwnIds(byId: map<nat, Category>)
  {
    forall id :: id in byId ==> byId[id].id == id
  }

  /** Every stored product has its own search string recorded, and nothing else is recorded. */
  ghost predicate SearchIndexOk(byId: map<nat, Product>, search: map<nat, string>)
  {
    && search.Keys == byId.Keys
    && (forall id :: id in search ==> id in byId && search[id] == SearchString(byId[id]))
  }

  /** Every indexed barcode is non-empty and carried by the product it finds. */
  ghost predicate BarcodeIndexOk(byBarcode: map<string, Product>)
  {
    forall b :: b in byBarcode ==> b != "" && byBarcode[b].barcode == b
  }

  /** Every id listed in `lists` is stored in `stored`. */
  ghost predicate ListedAreStored<T>(lists: map<nat, seq<nat>>, stored: map<nat, T>)
  {
    forall k, x :: k in lists && x in lists[k] ==> x in stored
  }

  /** Every stored product is listed under its own category. */
  ghost predicate ListedInOwnCategory(byId: map<nat, Product>, byCategory: map<nat, seq<nat>>)
  {
    forall id :: id in byId ==> id in Lookup(byCategory, byId[id].categId)
  }

  /** The product dictionaries agree: every record is stored under its own id,
      with its own search string, listed under its own category, and every
      indexed barcode and category entry refers to what is stored. */
  ghost predicate ProductTablesOk(
    byId: map<nat, Product>, byBarcode: map<string, Product>, byCategory: map<nat, seq<nat>>,
    search: map<nat, string>, ids: seq<nat>)
  {
    && Enumerates(ids, byId.Keys)
    && ProductsUnderOwnIds(byId)
    && SearchIndexOk(byId, search)
    && BarcodeIndexOk(byBarcode)
    && ListedAreStored(byCategory, byId)
    && ListedInOwnCategory(byId, byCategory)
  }

  /** Storing under key `k` and inserting `k` into the enumeration keeps the
      enumeration of the stored keys. */
  lemma StoreKeepsEnumeration<T>(byId: map<nat, T>, ids: seq<nat>, k: nat, r: T, byId': map<nat, T>, ids': seq<nat>)
    requires Enumerates(ids, byId.Keys)
    requires byId' == byId[k := r] && ids' == InsertSorted(ids, k)
    ensures Enumerates(ids', byId'.Keys)
  {
    assert byId'.Keys == byId.Keys + {k};
  }

  /** Appending `v` to the list under `k` keeps every listed value stored once `v` is. */
  lemma PushKeepsListedStored<T>(lists: map<nat, seq<nat>>, stored: map<nat, T>, k: nat, v: nat,
    lists': map<nat, seq<nat>>, stored': map<nat, T>)
    requires ListedAreStored(lists, stored)
    requires stored.Keys <= stored'.Keys && v in stored'
    requires lists' == lists[k := Lookup(lists, k) + [v]]
    ensures ListedAreStored(lists', stored')
  {
  }

  /** Storing `p` keeps every product listed under its own category. */
  lemma AddProductKeepsListing(byId: map<nat, Product>, byCategory: map<nat, seq<nat>>, p: Product,
    byId': map<nat, Product>, byCategory': map<nat, seq<nat>>)
    requires ListedInOwnCategory(byId, byCategory)
    requires byId' == byId[p.id := p]
    requires byCategory' == byCategory[p.categId := Lookup(byCategory, p.categId) + [p.id]]
    ensures ListedInOwnCategory(byId', byCategory')
  {
    forall id | id in byId' ensures id in Lookup(byCategory', byId'[id].categId) {
      if id != p.id {
        assert id in Lookup(byCategory, byId[id].categId);
      }
    }
  }

  /** Storing `p` with its search string keeps the search index in agreement. */
  lemma AddProductKeepsSearch(byId: map<nat, Product>, search: map<nat, string>, p: Product,
    byId': map<nat, Product>, search': map<nat, string>)
    requires SearchIndexOk(byId, search)
    requires byId' == byId[p.id := p] && search' == search[p.id := SearchString(p)]
    ensures SearchIndexOk(byId', search')
  {
  }

  /** Indexing `p` under its non-empty barcode keeps the barcode index in agreement. */
  lemma AddProductKeepsBarcodes(byBarcode: map<string, Product>, p: Product, byBarcode': map<string, Product>)
    requires BarcodeIndexOk(byBarcode)
    requires byBarcode' == if p.barcode != "" then byBarcode[p.barcode := p] else byBarcode
    ensures BarcodeIndexOk(byBarcode')
  {
  }

  /** Storing one more product, as the body of `add_products` does, keeps the
      product dictionaries in agreement. */
  lemma AddProductKeepsTablesOk(
    byId: map<nat, Product>, byBarcode: map<string, Product>, byCategory: map<nat, seq<nat>>,
    search: map<nat, string>, ids: seq<nat>, p: Product,
    byId': map<nat, Product>, byBarcode': map<string, Product>, byCategory': map<nat, seq<nat>>,
    search': map<nat, string>, ids': seq<nat>)
    requires ProductTablesOk(byId, byBarcode, byCategory, search, ids)
    requires byId' == byId[p.id := p]
    requires byBarcode' == if p.barcode != "" then byBarcode[p.barcode := p] else byBarcode
    requires byCategory' == byCategory[p.categId := Lookup(byCategory, p.categId) + [p.id]]
    requires search' == search[p.id := SearchString(p)]
    requires ids' == InsertSorted(ids, p.id)
    ensures ProductTablesOk(byId', byBarcode', byCategory', search', ids')
  {
    assert Enumerates(ids', byId'.Keys) by {
      StoreKeepsEnumeration(byId, ids, p.id, p, byId', ids');
    }
    assert SearchIndexOk(byId', search') by {
      AddProductKeepsSearch(byId, search, p, byId', search');
    }
    assert BarcodeIndexOk(byBarcode') by {
      AddProductKeepsBarcodes(byBarcode, p, byBarcode');
    }
    assert ListedAreStored(byCategory', byId') by {
      PushKeepsListedStored(byCategory, byId, p.categId, p.id, byCategory', byId');
    }
    assert ListedInOwnCategory(byId', byCategory') by {
      AddProductKeepsListing(byId, byCategory, p, byId', byCategory');
    }
  }

  /** Every stored category is listed among the children of its parent key. */
  ghost predicate ListedUnderParent(byId: map<nat, Category>, children: map<nat, seq<nat>>)
  {
    forall id :: id in byId ==> id in Lookup(children, ParentKey(byId[id]))
  }

  /** The category dictionaries agree: every category is stored under its own
      id and listed among the children of its parent key, and every child
      entry refers to a stored category. */
  ghost predicate CategoryTablesOk(byId: map<nat, Category>, children: map<nat, seq<nat>>, ids: seq<nat>)
  {
    && Enumerates(ids, byId.Keys)
    && CategoriesUnderOwnIds(byId)
    && ListedAreStored(children, byId)
    && ListedUnderParent(byId, children)
  }

  /** Storing `c` keeps every category listed among the children of its parent key. */
  lemma AddCategoryKeepsListing(byId: map<nat, Category>, children: map<nat, seq<nat>>, c: Category,
    byId': map<nat, Category>, children': map<nat, seq<nat>>)
    requires ListedUnderParent(byId, children)
    requires byId' == byId[c.id := c]
    requires children' == children[ParentKey(c) := Lookup(children, ParentKey(c)) + [c.id]]
    ensures ListedUnderParent(byId', children')
  {
    forall id | id in byId' ensures id in Lookup(children', ParentKey(byId'[id])) {
      if id != c.id {
        assert id in Lookup(children, ParentKey(byId[id]));
      }
    }
  }

  /** Storing one more category, as the body of `add_categories` does, keeps
      the category dictionaries in agreement. */
  lemma AddCategoryKeepsTablesOk(
    byId: map<nat, Category>, children: map<nat, seq<nat>>, ids: seq<nat>, c: Category,
    byId': map<nat, Category>, children': map<nat, seq<nat>>, ids': seq<nat>)
    requires CategoryTablesOk(byId, children, ids)
    requires byId' == byId[c.id := c]
    requires children' == children[ParentKey(c) := Lookup(children, ParentKey(c)) + [c.id]]
    requires ids' == InsertSorted(ids, c.id)
    ensures CategoryTablesOk(byId', children', ids')
  {
    StoreKeepsEnumeration(byId, ids, c.id, c, byId', ids');
    PushKeepsListedStored(children, byId, ParentKey(c), c.id, children', byId');
    AddCategoryKeepsListing(byId, children, c, byId', children');
  }

  ghost predicate PartnerTableOk(byId: map<nat, Partner>)
  {
    forall id :: id in byId ==> byId[id].id == id
  }

  /** The records stored under each of `ids`, in the order of `ids`. */
  function Resolve<T>(byId: map<nat, T>, ids: seq<nat>): (r: seq<T>)
    requires forall k :: k in ids ==> k in byId
    ensures |r| == |ids|
    ensures forall i :: 0 <= i < |ids| ==> r[i] == byId[ids[i]]
  {
    seq(|ids|, i requires 0 <= i < |ids| => byId[ids[i]])
  }

  // ---------------------------------------------------------------------------
  // The database
  // ---------------------------------------------------------------------------

  class LocalDB {
    var productById: map<nat, Product>
    var productByBarcode: map<string, Product>
    var productByCategoryId: map<nat, seq<nat>>
    var categoryById: map<nat, Category>
    var categoryChildren: map<nat, seq<nat>>
    var partnerById: map<nat, Partner>
    const rootCategoryId: nat
    var productSearchString: map<nat, string>
    /** The keys of `productById`, in JavaScript enumeration order. */
    var productIds: seq<nat>
    /** The keys of `categoryById`, in JavaScript enumeration order. */
    var categoryIds: seq<nat>

    /** The product dictionaries agree with each other. */
    ghost predicate ProductsValid()
      reads `productById, `productByBarcode, `productByCategoryId, `productSearchString, `productIds
    {
      ProductTablesOk(productById, productByBarcode, productByCategoryId, productSearchString, productIds)
    }

    /** The category dictionaries agree with each other. */
    ghost predicate CategoriesValid()
      reads `categoryById, `categoryChildren, `categoryIds
    {
      CategoryTablesOk(categoryById, categoryChildren, categoryIds)
    }

    ghost predicate Valid()
      reads this
    {
      ProductsValid() && CategoriesValid() && PartnerTableOk(partnerById)
    }

    constructor ()
      ensures Valid()
      ensures productById == map[] && productByBarcode == map[] && productByCategoryId == map[]
      ensures categoryById == map[] && categoryChildren == map[] && partnerById == map[]
      ensures productSearchString == map[] && rootCategoryId == 0
      ensures productIds == [] && categoryIds == []
    {
      productById := map[];
      productByBarcode := map[];
      productByCategoryId := map[];
      categoryById := map[];
      categoryChildren := map[];
      partnerById := map[];
      rootCategoryId := 0;
      productSearchString := map[];
      productIds := [];
      categoryIds := [];
    }

    /** One iteration of `add_categories`: stores `cat` and files its id under its parent key. */
    method StoreCategory(cat: Category)
      requires StrictlyIncreasing(categoryIds)
      modifies `categoryById, `categoryChildren, `categoryIds
      ensures categoryById == old(categoryById)[cat.id := cat]
      ensures categoryChildren == old(categoryChildren)[ParentKey(cat) := Lookup(old(categoryChildren), ParentKey(cat)) + [cat.id]]
      ensures categoryIds == InsertSorted(old(categoryIds), cat.id)
    {
      categoryById := categoryById[cat.id := cat];
      categoryIds := InsertSorted(categoryIds, cat.id);
      if cat.parent.ParentPair? {
        var parentId := cat.parent.parentId;
        if parentId !in categoryChildren {
          categoryChildren := categoryChildren[parentId := []];
        }
        categoryChildren := categoryChildren[parentId := categoryChildren[parentId] + [cat.id]];
      } else {
        if 0 !in categoryChildren {
          categoryChildren := categoryChildren[0 := []];
        }
        categoryChildren := categoryChildren[0 := categoryChildren[0] + [cat.id]];
      }
    }

    /** Stores each category and files its id under its parent key. */
    method AddCategories(categories: seq<Category>)
      requires Valid()
      modifies `categoryById, `categoryChildren, `categoryIds
      ensures Valid()
      ensures categoryById == CategoriesById(old(categoryById), categories)
      ensures categoryChildren == ChildrenIndex(old(categoryChildren), categories)
    {
      for i := 0 to |categories|
        invariant Valid()
        invariant categoryById == CategoriesById(old(categoryById), categories[..i])
        invariant categoryChildren == ChildrenIndex(old(categoryChildren), categories[..i])
      {
        CategoryFoldsStep(old(categoryById), old(categoryChildren), categories, i);
        ghost var byId, children, ids := categoryById, categoryChildren, categoryIds;
        StoreCategory(categories[i]);
        AddCategoryKeepsTablesOk(byId, children, ids, categories[i], categoryById, categoryChildren, categoryIds);
      }
      assert categories[..|categories|] == categories;
    }

    /** One iteration of `add_products`: stores `product` under its id and
        non-empty barcode, pushes its id onto its category's list and records
        its search string. */
    method StoreProduct(product: Product)
      requires StrictlyIncreasing(productIds)
      modifies `productById, `productByBarcode, `productByCategoryId, `productSearchString, `productIds
      ensures productById == old(productById)[product.id := product]
      ensures productByBarcode ==
        if product.barcode != "" then old(productByBarcode)[product.barcode := product] else old(productByBarcode)
      ensures productByCategoryId ==
        old(productByCategoryId)[product.categId := Lookup(old(productByCategoryId), product.categId) + [product.id]]
      ensures productSearchString == old(productSearchString)[product.id := SearchString(product)]
      ensures productIds == InsertSorted(old(productIds), product.id)
    {
      productById := productById[product.id := product];
      productIds := InsertSorted(productIds, product.id);
      if product.barcode != "" {
        productByBarcode := productByBarcode[product.barcode := product];
      }
      var catId := product.categId;
      if catId !in productByCategoryId {
        productByCategoryId := productByCategoryId[catId := []];
      }
      productByCategoryId := productByCategoryId[catId := productByCategoryId[catId] + [product.id]];
      var searchStr := ComposeSearchString(product);
      productSearchString := productSearchString[product.id := Lower(searchStr)];
    }

    /** The search string of `product` before lower-casing: barcode, internal
        reference and colon-free display name, each non-empty one behind a '|'. */
    static method ComposeSearchString(product: Product) returns (searchStr: string)
      ensures searchStr == SearchParts(product)
    {
      searchStr := "";
      if product.barcode != "" { searchStr := searchStr + "|" + product.barcode; }
      if product.defaultCode != "" { searchStr := searchStr + "|" + product.defaultCode; }
      assert searchStr == Part(product.barcode) + Part(product.defaultCode);
      if product.displayName != "" { searchStr := searchStr + "|" + RemoveColons(product.displayName); }
      assert searchStr == Part(product.barcode) + Part(product.defaultCode) + NamePart(product.displayName);
    }

    /** Stores each product under its id and non-empty barcode, pushes its id
        onto its category's list and records its search string. */
    method AddProducts(products: seq<Product>)
      requires Valid()
      modifies `productById, `productByBarcode, `productByCategoryId, `productSearchString, `productIds
      ensures Valid()
      ensures productById == IndexById(old(productById), products)
      ensures productByBarcode == IndexByBarcode(old(productByBarcode), products)
      ensures productByCategoryId == IndexByCategory(old(productByCategoryId), products)
      ensures productSearchString == IndexSearch(old(productSearchString), products)
    {
      for i := 0 to |products|
        invariant Valid()
        invariant productById == IndexById(old(productById), products[..i])
        invariant productByBarcode == IndexByBarcode(old(productByBarcode), products[..i])
        invariant productByCategoryId == IndexByCategory(old(productByCategoryId), products[..i])
        invariant productSearchString == IndexSearch(old(productSearchString), products[..i])
      {
        ProductFoldsStep(old(productById), old(productByBarcode), old(productByCategoryId),
          old(productSearchString), products, i);
        ghost var byId, byBarcode, byCategory, search, ids :=
          productById, productByBarcode, productByCategoryId, productSearchString, productIds;
        StoreProduct(products[i]);
        AddProductKeepsTablesOk(byId, byBarcode, byCategory, search, ids, products[i],
          productById, productByBarcode, productByCategoryId, productSearchString, productIds);
      }
      assert products[..|products|] == products;
    }

    /** Stores each partner under its id. */
    method AddPartners(partners: seq<Partner>)
      requires Valid()
      modifies `partnerById
      ensures Valid()
      ensures partnerById == PartnersById(old(partnerById), partners)
    {
      for i := 0 to |partners|
        invariant PartnerTableOk(partnerById)
        invariant partnerById == PartnersById(old(partnerById), partners[..i])
      {
        var partner := partners[i];
        assert partners[..i + 1][..i] == partners[..i];
        partnerById := partnerById[partner.id := partner];
      }
      assert partners[..|partners|] == partners;
    }

    /** The product stored under `id`, if any; it carries that id. */
    function GetProductById(id: nat): (r: Option<Product>)
      reads this
      requires Valid()
      ensures r.Some? <==> id in productById
      ensures r.Some? ==> r.value == productById[id] && r.value.id == id
    {
      if id in productById then Some(productById[id]) else None
    }

    /** The product stored under `barcode`, if any; it carries that barcode,
        so the empty barcode finds nothing. */
    function GetProductByBarcode(barcode: string): (r: Option<Product>)
      reads this
      requires Valid()
      ensures r.Some? <==> barcode in productByBarcode
      ensures r.Some? ==> r.value == productByBarcode[barcode] && r.value.barcode == barcode && barcode != ""
    {
      if barcode in productByBarcode then Some(productByBarcode[barcode]) else None
    }

    /** Category 0 lists every product once, in ascending id order; any other
        category lists the products indexed directly under it, in insertion order. */
    function GetProductsByCategory(categoryId: nat): (r: seq<Product>)
      reads this
      requires Valid()
      ensures categoryId == 0 ==> |r| == |productIds| == |productById|
      ensures categoryId == 0 ==> forall i :: 0 <= i < |r| ==>
        r[i] == productById[productIds[i]] && r[i].id == productIds[i]
      ensures categoryId != 0 ==> |r| == |Lookup(productByCategoryId, categoryId)|
      ensures categoryId != 0 ==> forall i :: 0 <= i < |r| ==>
        r[i] == productById[productByCategoryId[categoryId][i]] && r[i].id == productByCategoryId[categoryId][i]
    {
      if categoryId == 0 then
        EnumerationSize(productIds, productById.Keys);
        Resolve(productById, productIds)
      else if categoryId !in productByCategoryId then []
      else
        Resolve(productById, productByCategoryId[categoryId])
    }

    /** The categories filed under `parentId`, in insertion order, or `[]`. */
    function GetSubcategories(parentId: nat): (r: seq<Category>)
      reads this
      requires Valid()
      ensures |r| == |Lookup(categoryChildren, parentId)|
      ensures forall i :: 0 <= i < |r| ==>
        r[i] == categoryById[categoryChildren[parentId][i]] && r[i].id == categoryChildren[parentId][i]
    {
      if parentId !in categoryChildren then []
      else
        Resolve(categoryById, categoryChildren[parentId])
    }

    /** The parent id of a known category whose parent is a pair; 0 for a root
        category or an unknown id. */
    function GetCategoryParent(childId: nat): (r: nat)
      reads this
      ensures childId in categoryById && categoryById[childId].parent.ParentPair? ==>
        r == categoryById[childId].parent.parentId
      ensures !(childId in categoryById && categoryById[childId].parent.ParentPair?) ==> r == 0
    {
      if childId in categoryById && categoryById[childId].parent.ParentPair? then
        categoryById[childId].parent.parentId
      else 0
    }

    /** The partner stored under `id`, if any; it carries that id. */
    function GetPartnerById(id: nat): (r: Option<Partner>)
      reads this
      requires Valid()
      ensures r.Some? <==> id in partnerById
      ensures r.Some? ==> r.value == partnerById[id] && r.value.id == id
    {
      if id in partnerById then Some(partnerById[id]) else None
    }

    /** Every category once, in ascending id order. */
    function GetAllCategories(): (r: seq<Category>)
      reads this
      requires Valid()
      ensures |r| == |categoryIds| == |categoryById|
      ensures forall i :: 0 <= i < |r| ==> r[i] == categoryById[categoryIds[i]] && r[i].id == categoryIds[i]
      ensures forall i, j :: 0 <= i < j < |r| ==> r[i].id < r[j].id
    {
      EnumerationSize(categoryIds, categoryById.Keys);
      Resolve(categoryById, categoryIds)
    }

    /** Scans the search strings in ascending id order, collecting each product
        whose string contains the lower-cased query, and stops once more than
        30 are collected. */
    method SearchProduct(query: string) returns (results: seq<Product>)
      requires Valid()
      ensures results == SearchResults(productById, productIds, query)
    {
      if query == "" {
        return [];
      }
      var q := Lower(query);
      results := [];
      var i := 0;
      while i < |productIds|
        invariant 0 <= i <= |productIds|
        invariant results == Matches(productById, productIds[..i], q)
        invariant |results| <= SearchCap
      {
        var id := productIds[i];
        assert id in productById && id in productSearchString;
        ScanStep(productById, productIds, i, q, productSearchString[id]);
        if Occurs(productSearchString[id], q) {
          results := results + [productById[id]];
        }
        i := i + 1;
        if |results| > SearchCap {
          break;
        }
      }
      ScanPrefixResults(productById, productIds, i, q);
    }

    /** Every stored product is listed under its own category. */
    lemma ProductInOwnCategory(id: nat)
      requires Valid()
      requires id in productById
      ensures productById[id] in GetProductsByCategory(productById[id].categId)
    {
      var c := productById[id].categId;
      var r := GetProductsByCategory(c);
      if c == 0 {
        var i :| 0 <= i < |productIds| && productIds[i] == id;
        assert r[i] == productById[id];
      } else {
        var i :| 0 <= i < |productByCategoryId[c]| && productByCategoryId[c][i] == id;
        assert r[i] == productById[id];
      }
    }

    /** Every stored category is among the subcategories of its parent, so the
        breadcrumb step up and the listing step down agree. */
    lemma CategoryAmongSiblings(id: nat)
      requires Valid()
      requires id in categoryById
      ensures categoryById[id] in GetSubcategories(GetCategoryParent(id))
    {
      var k := ParentKey(categoryById[id]);
      assert GetCategoryParent(id) == k;
      var i :| 0 <= i < |categoryChildren[k]| && categoryChildren[k][i] == id;
      assert GetSubcategories(k)[i] == categoryById[id];
    }
  }
}
