/**
 Category trees: the frontier loop that collects a subtree on any parent graph, the removal of a whole
 tree, the removal of a tree that keeps one of its subtrees, and the cleaning of product paths.
 */
module CategoryTree {
  import opened Prelude

  datatype Category = Category(parent: Option<int>, slug: string)

  type Categories = map<int, Category>

  /** An element of a product's extra_category_paths: only strings are looked at. */
  datatype Path = Text(text: string) | NotText(raw: int)

  /** attributes_json: no usable path list, or a dictionary with one (an absent key is the empty list). */
  datatype Attributes = Opaque(raw: int) | Dict(paths: seq<Path>)

  datatype Product = Product(category: Option<int>, attributes: Attributes)

  /** SELECT id FROM categories WHERE parent_id IN frontier. */
  function Children(cats: Categories, frontier: set<int>): set<int> {
    set c | c in cats && cats[c].parent.Some? && cats[c].parent.value in frontier
  }

  // ---------------------------------------------------------------- reference definition

  /** The category k steps up the parent links. */
  function Up(cats: Categories, c: int, k: nat): Option<int> {
    if k == 0 then Some(c)
    else
      var d := Up(cats, c, k - 1);
      if d.Some? && d.value in cats then cats[d.value].parent else None
  }

  ghost predicate Under(cats: Categories, roots: set<int>, c: int) {
    exists k: nat :: Up(cats, c, k).Some? && Up(cats, c, k).value in roots
  }

  /** The roots and everything below them. */
  ghost function Tree(cats: Categories, roots: set<int>): set<int> {
    set c | c in cats.Keys + roots && Under(cats, roots, c)
  }

  lemma {:induction false} UpFromParent(cats: Categories, c: int, k: nat)
    requires c in cats && cats[c].parent.Some?
    ensures Up(cats, c, k + 1) == Up(cats, cats[c].parent.value, k)
  {
    if k > 0 { UpFromParent(cats, c, k - 1); }
  }

  lemma ChildUnder(cats: Categories, roots: set<int>, c: int)
    requires c in cats && cats[c].parent.Some? && Under(cats, roots, cats[c].parent.value)
    ensures Under(cats, roots, c)
  {
    var k: nat :| Up(cats, cats[c].parent.value, k).Some? && Up(cats, cats[c].parent.value, k).value in roots;
    UpFromParent(cats, c, k);
    assert Up(cats, c, k + 1).Some?;
  }

  /** A set that holds the roots and is closed under children holds everything under the roots. */
  lemma {:induction false} ClosedHolds(cats: Categories, roots: set<int>, ids: set<int>, c: int, k: nat)
    requires roots <= ids && Children(cats, ids) <= ids
    requires Up(cats, c, k).Some? && Up(cats, c, k).value in roots
    ensures c in ids
    decreases k
  {
    if k > 0 {
      FirstStep(cats, c, k);
      UpFromParent(cats, c, k - 1);
      ClosedHolds(cats, roots, ids, cats[c].parent.value, k - 1);
      assert c in Children(cats, ids);
    }
  }

  lemma {:induction false} FirstStep(cats: Categories, c: int, k: nat)
    requires k > 0 && Up(cats, c, k).Some?
    ensures c in cats && cats[c].parent.Some?
  {
    if k > 1 { FirstStep(cats, c, k - 1); }
  }

  /** The frontier loop: on any parent graph, cyclic ones included, it ends with exactly the subtree. */
  method TreeIds(cats: Categories, roots: set<int>) returns (ids: set<int>)
    ensures ids == Tree(cats, roots)
    ensures forall c :: Under(cats, roots, c) <==> c in ids
  {
    ids := roots;
    var frontier := roots;
    forall c | c in roots ensures Under(cats, roots, c) { assert Up(cats, c, 0) == Some(c); }
    while frontier != {}
      invariant roots <= ids && frontier <= ids
      invariant ids <= cats.Keys + roots && forall c :: c in ids ==> Under(cats, roots, c)
      invariant Children(cats, ids - frontier) <= ids
      decreases cats.Keys - ids, frontier
    {
      var children := Children(cats, frontier);
      forall c | c in children ensures Under(cats, roots, c) { ChildUnder(cats, roots, c); }
      frontier := children - ids;
      ids := ids + frontier;
    }
    forall c | Under(cats, roots, c) ensures c in ids {
      var k: nat :| Up(cats, c, k).Some? && Up(cats, c, k).value in roots;
      ClosedHolds(cats, roots, ids, c, k);
    }
  }

  // ---------------------------------------------------------------- product paths

  const ROOT_PATH := "РОБОЧЕ МІСЦЕ"
  const KEPT_NAME := "ПРОФЕСІЙНІ ГРЕБЕНІ ТА ЩІТКИ"
  const KEPT_PATH := ROOT_PATH + "/" + KEPT_NAME

  /** What one path becomes: nothing, its part below the root, or itself. */
  function CleanPath(p: Path): Option<Path> {
    if p.NotText? then Some(p)
    else if p.text == ROOT_PATH then None
    else if p.text == KEPT_PATH then Some(Text(KEPT_NAME))
    else if KEPT_PATH + "/" <= p.text then Some(Text(p.text[|ROOT_PATH| + 1..]))
    else if ROOT_PATH + "/" <= p.text then None
    else Some(p)
  }

  function CleanPaths(paths: seq<Path>): seq<Path> {
    if |paths| == 0 then []
    else CleanPaths(paths[..|paths| - 1]) + match CleanPath(paths[|paths| - 1]) case None => [] case Some(p) => [p]
  }

  /** _clean_workplace_paths. */
  method CleanAttributes(value: Attributes) returns (result: Attributes)
    ensures value.Opaque? ==> result == value
    ensures value.Dict? ==> result == Dict(CleanPaths(value.paths))
  {
    if value.Opaque? {
      return value;
    }
    var cleaned: seq<Path> := [];
    for i := 0 to |value.paths|
      invariant cleaned == CleanPaths(value.paths[..i])
    {
      assert value.paths[..i + 1][..i] == value.paths[..i];
      var path := value.paths[i];
      if path.NotText? {
        cleaned := cleaned + [path];
        continue;
      }
      if path.text == ROOT_PATH {
        continue;
      }
      if path.text == KEPT_PATH {
        cleaned := cleaned + [Text(KEPT_NAME)];
        continue;
      }
      if KEPT_PATH + "/" <= path.text {
        cleaned := cleaned + [Text(path.text[|ROOT_PATH| + 1..])];
        continue;
      }
      if ROOT_PATH + "/" <= path.text {
        continue;
      }
      cleaned := cleaned + [path];
    }
    assert value.paths[..|value.paths|] == value.paths;
    result := Dict(cleaned);
  }

  /** Neither the removed root nor anything below it. */
  predicate OutsideRoot(p: Path) {
    p.Text? ==> p.text != ROOT_PATH && !(ROOT_PATH + "/" <= p.text)
  }

  lemma CleanPathLeavesRoot(p: Path)
    ensures CleanPath(p).Some? ==> OutsideRoot(CleanPath(p).value) && CleanPath(CleanPath(p).value) == CleanPath(p)
    ensures OutsideRoot(p) ==> CleanPath(p) == Some(p)
  {
    assert KEPT_NAME[0] != ROOT_PATH[0];
    if p.Text? && KEPT_PATH + "/" <= p.text {
      assert p.text[|ROOT_PATH| + 1] == (KEPT_PATH + "/")[|ROOT_PATH| + 1] == KEPT_NAME[0];
    }
  }

  /** Cleaning removes every path at or below the root, keeps foreign ones, and needs to be done only once. */
  lemma {:induction false} CleaningIsFinal(paths: seq<Path>)
    ensures forall p :: p in CleanPaths(paths) ==> OutsideRoot(p)
    ensures forall p :: p in paths && OutsideRoot(p) ==> p in CleanPaths(paths)
    ensures CleanPaths(CleanPaths(paths)) == CleanPaths(paths)
  {
    if |paths| > 0 {
      var init, last := paths[..|paths| - 1], paths[|paths| - 1];
      CleaningIsFinal(init);
      CleanPathLeavesRoot(last);
      assert paths == init + [last];
      var clean := CleanPaths(init);
      if CleanPath(last).Some? {
        assert CleanPaths(paths)[..|clean|] == clean;
      } else {
        assert CleanPaths(paths) == clean;
      }
    }
  }

  // ---------------------------------------------------------------- removals

  const ROOT_SLUG := "roboche-mistse"
  const KEPT_SLUG := "roboche-mistse-profesiini-grebeni-ta-shchitki"
  const NEW_KEPT_SLUG := "profesiini-grebeni-ta-shchitki"
  const CLIPPER_SLUGS := {"instrumenti-mashinki-dlia-strizhki", "instrumenti-trimeri-ta-sheiveri"}

  /** SQL replace(): every occurrence, left to right. */
  function Replace(s: string, from: string, to: string): string
    requires from != ""
    decreases |s|
  {
    if |s| < |from| then s
    else if from <= s then to + Replace(s[|from|..], from, to)
    else [s[0]] + Replace(s[1..], from, to)
  }

  /** The unique slug column. */
  predicate SlugsUnique(cats: Categories) {
    forall c, d :: c in cats && d in cats && c != d ==> cats[c].slug != cats[d].slug
  }

  function WithSlug(cats: Categories, slug: string): set<int> {
    set c | c in cats && cats[c].slug == slug
  }

  lemma SoleSlug(cats: Categories, slug: string, c: int)
    requires SlugsUnique(cats) && c in WithSlug(cats, slug)
    ensures WithSlug(cats, slug) == {c}
  {
    forall d | d in WithSlug(cats, slug) ensures d in {c} {}
  }

  /** No category that is left had its parent among the removed ones. */
  ghost predicate NoOrphans(before: Categories, after: Categories) {
    forall c :: c in after && after[c].parent.Some? && after[c].parent.value in before ==> after[c].parent.value in after
  }

  function WithoutProductsOf(products: map<int, Product>, removed: set<int>): map<int, Product> {
    map p | p in products && !(products[p].category.Some? && products[p].category.value in removed) :: products[p]
  }

  predicate HasHistory(products: map<int, Product>, ordered: set<int>, removed: set<int>) {
    exists p :: p in products && p in ordered && products[p].category.Some? && products[p].category.value in removed
  }

  /** Deleting whole trees orphans nothing: a child of a tree is in the tree. */
  lemma WholeTreesOrphanNothing(cats: Categories, roots: set<int>)
    ensures NoOrphans(cats, map c | c in cats && c !in Tree(cats, roots) :: cats[c])
  {
    forall c | c in cats && c !in Tree(cats, roots) && cats[c].parent.Some? ensures cats[c].parent.value !in Tree(cats, roots) {
      if Under(cats, roots, cats[c].parent.value) { ChildUnder(cats, roots, c); }
    }
  }

  /** The category rows after keeping one subtree of a removed tree. */
  function Detached(cats: Categories, removed: set<int>, keptTree: set<int>, kept: int): Categories {
    map c | c in cats && c !in removed ::
      if c == kept then Category(None, NEW_KEPT_SLUG)
      else if c in keptTree then Category(cats[c].parent, Replace(cats[c].slug, KEPT_SLUG, NEW_KEPT_SLUG))
      else cats[c]
  }

  /** Removing a tree but for one of its subtrees orphans nothing once the kept root is detached. */
  lemma KeptSubtreeOrphansNothing(cats: Categories, root: int, kept: int)
    ensures NoOrphans(cats, Detached(cats, Tree(cats, {root}) - Tree(cats, {kept}), Tree(cats, {kept}), kept))
  {
    var removed := Tree(cats, {root}) - Tree(cats, {kept});
    forall c | c in cats && c !in removed && c != kept && cats[c].parent.Some? ensures cats[c].parent.value !in removed {
      var p := cats[c].parent.value;
      if Under(cats, {root}, p) {
        ChildUnder(cats, {root}, c);
        ParentStaysUnder(cats, c, kept);
      }
    }
  }

  /** Everything under a root other than the root itself has its parent under it. */
  lemma ParentStaysUnder(cats: Categories, c: int, kept: int)
    requires Under(cats, {kept}, c) && c != kept && c in cats && cats[c].parent.Some?
    ensures Under(cats, {kept}, cats[c].parent.value)
    ensures cats[c].parent.value in cats.Keys + {kept}
  {
    var k: nat :| Up(cats, c, k).Some? && Up(cats, c, k).value in {kept};
    UpFromParent(cats, c, k - 1);
    if k > 1 { FirstStep(cats, cats[c].parent.value, k - 1); }
  }

  /** The kept subtree is whole afterwards: exactly the same categories are under the kept root. */
  lemma KeptTreeIntact(cats: Categories, removed: set<int>, kept: int)
    requires removed !! Tree(cats, {kept}) && kept in cats
    ensures Tree(Detached(cats, removed, Tree(cats, {kept}), kept), {kept}) == Tree(cats, {kept})
  {
    var after := Detached(cats, removed, Tree(cats, {kept}), kept);
    forall c | Under(cats, {kept}, c) ensures Under(after, {kept}, c) {
      var k: nat :| Up(cats, c, k).Some? && Up(cats, c, k).value in {kept};
      StillUnder(cats, removed, kept, c, k);
    }
    forall c | Under(after, {kept}, c) ensures Under(cats, {kept}, c) {
      var k: nat :| Up(after, c, k).Some? && Up(after, c, k).value in {kept};
      WasUnder(cats, removed, kept, c, k);
    }
    forall c | c in Tree(cats, {kept}) ensures c in Tree(after, {kept}) {
      assert c in after.Keys + {kept};
    }
    forall c | c in Tree(after, {kept}) ensures c in Tree(cats, {kept}) {
      assert c in cats.Keys + {kept};
    }
  }

  lemma {:induction false} StillUnder(cats: Categories, removed: set<int>, kept: int, c: int, k: nat)
    requires removed !! Tree(cats, {kept}) && Up(cats, c, k) == Some(kept)
    ensures Under(Detached(cats, removed, Tree(cats, {kept}), kept), {kept}, c)
    decreases k
  {
    var after := Detached(cats, removed, Tree(cats, {kept}), kept);
    if c == kept {
      assert Up(after, c, 0) == Some(kept);
    } else {
      FirstStep(cats, c, k);
      UpFromParent(cats, c, k - 1);
      StillUnder(cats, removed, kept, cats[c].parent.value, k - 1);
      assert Under(cats, {kept}, c) && c in Tree(cats, {kept});
      ChildUnder(after, {kept}, c);
    }
  }

  lemma {:induction false} WasUnder(cats: Categories, removed: set<int>, kept: int, c: int, k: nat)
    requires Up(Detached(cats, removed, Tree(cats, {kept}), kept), c, k) == Some(kept)
    ensures Under(cats, {kept}, c)
    decreases k
  {
    var after := Detached(cats, removed, Tree(cats, {kept}), kept);
    if k == 0 {
      assert Up(cats, c, 0) == Some(kept);
    } else {
      FirstStep(after, c, k);
      UpFromParent(after, c, k - 1);
      WasUnder(cats, removed, kept, after[c].parent.value, k - 1);
      ChildUnder(cats, {kept}, c);
    }
  }

  function ClipperRoots(cats: Categories): set<int> {
    set c | c in cats && cats[c].slug in CLIPPER_SLUGS
  }

  /** What 0094 removes: the Workplace tree but for the combs tree. */
  ghost function WorkplaceRemoved(cats: Categories): set<int> {
    Tree(cats, WithSlug(cats, ROOT_SLUG)) - Tree(cats, WithSlug(cats, KEPT_SLUG))
  }

  /** The combs category exists under Workplace, its new slug is free, and no removed product was ordered. */
  ghost predicate WorkplaceRemovable(cats: Categories, products: map<int, Product>, ordered: set<int>) {
    && WithSlug(cats, KEPT_SLUG) != {} && WithSlug(cats, KEPT_SLUG) <= Tree(cats, WithSlug(cats, ROOT_SLUG))
    && WithSlug(cats, NEW_KEPT_SLUG) == {}
    && !HasHistory(products, ordered, WorkplaceRemoved(cats))
  }

  class Catalog {
    var categories: Categories
    var products: map<int, Product>
    /** Products that order history references. */
    var ordered: set<int>

    /** 0092: delete the clipper and trimmer trees with their products. */
    method RemoveClippers() returns (ok: bool)
      modifies this`categories, this`products
      ensures var ids := Tree(old(categories), ClipperRoots(old(categories)));
        && ok == !HasHistory(old(products), ordered, ids)
        && categories == (if ok then (map c | c in old(categories) && c !in ids :: old(categories)[c]) else old(categories))
        && products == (if ok then WithoutProductsOf(old(products), ids) else old(products))
      ensures NoOrphans(old(categories), categories)
    {
      var ids := TreeIds(categories, ClipperRoots(categories));
      WholeTreesOrphanNothing(categories, ClipperRoots(categories));
      if ids == {} {
        assert categories == map c | c in categories && c !in ids :: categories[c];
        return true;
      }
      if HasHistory(products, ordered, ids) {
        return false;
      }
      products := WithoutProductsOf(products, ids);
      categories := map c | c in categories && c !in ids :: categories[c];
      ok := true;
    }

    /**
     0094: delete the Workplace tree and its products except the combs subtree, whose root becomes a
     standalone category. With no Workplace category there is nothing to do.
     */
    method RemoveWorkplaceKeepCombs() returns (ok: bool)
      requires SlugsUnique(categories)
      modifies this`categories, this`products
      ensures var cats := old(categories);
        if WithSlug(cats, ROOT_SLUG) == {} then ok && categories == cats && products == old(products)
        else
          && ok == WorkplaceRemovable(cats, old(products), ordered)
          && (!ok ==> categories == cats && products == old(products))
          && (ok ==>
                exists kept :: WithSlug(cats, KEPT_SLUG) == {kept}
                  && categories == Detached(cats, WorkplaceRemoved(cats), Tree(cats, {kept}), kept)
                  && products == Cleaned(WithoutProductsOf(old(products), WorkplaceRemoved(cats))))
      ensures NoOrphans(old(categories), categories)
    {
      ghost var cats := categories;
      var roots, keptRoots := WithSlug(categories, ROOT_SLUG), WithSlug(categories, KEPT_SLUG);
      if !exists c :: c in roots {
        assert roots == {};
        return true;
      }
      var rootTree := TreeIds(categories, roots);
      if keptRoots == {} || !(keptRoots <= rootTree) {
        return false;
      }
      var kept :| kept in keptRoots;
      var root :| root in roots;
      SoleSlug(categories, KEPT_SLUG, kept);
      SoleSlug(categories, ROOT_SLUG, root);
      if exists c :: c in categories && categories[c].slug == NEW_KEPT_SLUG && c != kept {
        var c :| c in categories && categories[c].slug == NEW_KEPT_SLUG && c != kept;
        assert c in WithSlug(categories, NEW_KEPT_SLUG);
        return false;
      }
      assert categories[kept].slug == KEPT_SLUG != NEW_KEPT_SLUG && WithSlug(categories, NEW_KEPT_SLUG) == {};
      var keptTree := TreeIds(categories, keptRoots);
      var removed := rootTree - keptTree;
      if HasHistory(products, ordered, removed) {
        return false;
      }
      KeptSubtreeOrphansNothing(categories, root, kept);
      products := WithoutProductsOf(products, removed);
      CleanProducts();
      categories := Detached(categories, removed, keptTree, kept);
      ok := true;
    }

    /** The loop over products with attributes. */
    method CleanProducts()
      modifies this`products
      ensures products == Cleaned(old(products))
    {
      var todo := products.Keys;
      ghost var before := products;
      while exists p :: p in todo
        invariant todo <= before.Keys == products.Keys
        invariant forall p :: p in before ==> products[p] == if p in todo then before[p] else CleanedProduct(before[p])
        decreases todo
      {
        var p :| p in todo;
        var cleaned := CleanAttributes(products[p].attributes);
        if cleaned != products[p].attributes {
          products := products[p := products[p].(attributes := cleaned)];
        }
        todo := todo - {p};
      }
      assert forall p :: p in before ==> p !in todo && products[p] == CleanedProduct(before[p]);
    }
  }

  function CleanedProduct(p: Product): Product {
    if p.attributes.Opaque? then p else p.(attributes := Dict(CleanPaths(p.attributes.paths)))
  }

  function Cleaned(products: map<int, Product>): map<int, Product> {
    map p | p in products :: CleanedProduct(products[p])
  }
}
