/**
 * The portfolio page: nine fixed items, a row of category buttons and a
 * lightbox.  Its state is the selected category and the lightbox image, each
 * replaced as a whole by a click.
 */
module PortfolioPage {
  import opened Wrappers
  import opened CategoryFilter
  import opened Assets

  datatype Item = Item(id: int, category: string, image: string, title: string)

  function CategoryOf(item: Item): string
  {
    item.category
  }

  /** Items without a bundled picture point at a placeholder. */
  const Placeholder := "/api/placeholder/400/500"

  /** The filter buttons, in display order. */
  const Categories: seq<string> := ["All", "Weddings", "Portraits", "Commercial", "Events"]

  const PortfolioItems: seq<Item> := [
    Item(1, "Weddings", WeddingPicture, "Sunset Wedding"),
    Item(2, "Portraits", PortraitPicture, "Golden Hour Portrait"),
    Item(3, "Weddings", Placeholder, "Garden Ceremony"),
    Item(4, "Commercial", Placeholder, "Product Shoot"),
    Item(5, "Portraits", Placeholder, "Family Session"),
    Item(6, "Events", Placeholder, "Corporate Event"),
    Item(7, "Weddings", Placeholder, "Beach Wedding"),
    Item(8, "Portraits", Placeholder, "Maternity Shoot"),
    Item(9, "Commercial", Placeholder, "Brand Photography")
  ]

  datatype State = State(selectedCategory: string, lightboxImage: Option<string>)

  /** `useState("All")` and `useState(null)`. */
  const Initial := State(All, None)

  /** `filteredItems`. */
  function FilteredItems(s: State): (r: seq<Item>)
    ensures s.selectedCategory == All ==> r == PortfolioItems
    ensures s.selectedCategory != All ==>
              forall x :: x in r <==> x in PortfolioItems && x.category == s.selectedCategory
    ensures |r| <= |PortfolioItems| && IsSubsequence(r, PortfolioItems)
  {
    Filtered(PortfolioItems, CategoryOf, s.selectedCategory)
  }

  /** A category button. */
  function ChooseCategory(s: State, category: string): (t: State)
    ensures t.selectedCategory == category && t.lightboxImage == s.lightboxImage
  {
    s.(selectedCategory := category)
  }

  /** A click on an item of the grid. */
  function ClickItem(s: State, item: Item): (t: State)
    ensures t.lightboxImage == Some(item.image) && t.selectedCategory == s.selectedCategory
    ensures LightboxShown(t) <==> item.image != ""
  {
    s.(lightboxImage := Some(item.image))
  }

  /** Where a click inside the open lightbox lands; only the button has a handler. */
  datatype LightboxTarget = CloseButton | Picture | Backdrop

  function ClickLightbox(s: State, target: LightboxTarget): (t: State)
    ensures t.selectedCategory == s.selectedCategory
    ensures target == CloseButton ==> t.lightboxImage.None? && !LightboxShown(t)
    ensures target != CloseButton ==> t == s
  {
    if target == CloseButton then s.(lightboxImage := None) else s
  }

  /** `{lightboxImage && ...}`: shown for a non-empty image reference. */
  predicate LightboxShown(s: State)
  {
    s.lightboxImage.Some? && s.lightboxImage.value != ""
  }

  /** The page opens on all nine items, with the lightbox closed. */
  lemma InitialShowsEverything()
    ensures FilteredItems(Initial) == PortfolioItems && |FilteredItems(Initial)| == 9
    ensures !LightboxShown(Initial)
  {
  }

  /** Choosing a category twice shows what choosing it once does. */
  lemma ChoosingAgainChangesNothing(s: State, category: string)
    ensures FilteredItems(ChooseCategory(ChooseCategory(s, category), category)) == FilteredItems(ChooseCategory(s, category))
    ensures Filtered(FilteredItems(ChooseCategory(s, category)), CategoryOf, category) == FilteredItems(ChooseCategory(s, category))
  {
    FilteredIdempotent(PortfolioItems, CategoryOf, category);
  }

  /**
   * "All" is the first button and no item's category; every item's category
   * is one of the other buttons.
   */
  lemma RealCategoriesCoverItems()
    ensures |Categories| == 5 && Categories[0] == All && All !in Categories[1..]
    ensures forall i :: 0 <= i < |PortfolioItems| ==> CategoryOf(PortfolioItems[i]) in Categories[1..]
  {
    assert Categories[1..] == ["Weddings", "Portraits", "Commercial", "Events"];
  }

  /** Choosing the category of item `i` shows at least that item. */
  lemma ItemShowsItsCategory(i: nat, category: string)
    requires i < |PortfolioItems| && CategoryOf(PortfolioItems[i]) == category
    ensures PortfolioItems[i] in FilteredItems(ChooseCategory(Initial, category))
  {
    CategoryOfAnItemShows(PortfolioItems, CategoryOf, i);
  }

  /** Each button other than "All" shows at least one item. */
  lemma EveryCategoryShowsSomething(category: string)
    requires category in Categories[1..]
    ensures FilteredItems(ChooseCategory(Initial, category)) != []
  {
    assert Categories[1..] == ["Weddings", "Portraits", "Commercial", "Events"];
    if category == "Weddings" {
      ItemShowsItsCategory(0, category);
    } else if category == "Portraits" {
      ItemShowsItsCategory(1, category);
    } else if category == "Commercial" {
      ItemShowsItsCategory(3, category);
    } else {
      ItemShowsItsCategory(5, category);
    }
  }

  /** The grid after a category button shows that category of the items. */
  lemma ChoosingFilters(s: State, category: string)
    ensures FilteredItems(ChooseCategory(s, category)) == Filtered(PortfolioItems, CategoryOf, category)
  {
  }

  /**
   * The grids shown for the four buttons other than "All" (`a` to `d` in
   * display order; see ChoosingFilters) split the nine items between them:
   * each item lands in exactly one grid.
   */
  lemma CategoriesPartitionItems(a: string, b: string, c: string, d: string)
    requires Categories[1..] == [a, b, c, d]
    ensures var w, x, y, z := Filtered(PortfolioItems, CategoryOf, a), Filtered(PortfolioItems, CategoryOf, b),
                              Filtered(PortfolioItems, CategoryOf, c), Filtered(PortfolioItems, CategoryOf, d);
            multiset(w) + multiset(x) + multiset(y) + multiset(z) == multiset(PortfolioItems) &&
            |w| + |x| + |y| + |z| == |PortfolioItems|
  {
    RealCategoriesCoverItems();
    assert a == "Weddings" && b == "Portraits" && c == "Commercial" && d == "Events";
    FilteredByFourCategories(PortfolioItems, CategoryOf, a, b, c, d);
  }

  /** A click on a shown item opens the lightbox on that item's picture and leaves the grid as it is. */
  lemma ClickOpensLightbox(s: State, item: Item)
    requires item in FilteredItems(s)
    ensures LightboxShown(ClickItem(s, item)) && ClickItem(s, item).lightboxImage == Some(item.image)
    ensures FilteredItems(ClickItem(s, item)) == FilteredItems(s)
  {
  }

  /** Only the close button closes the lightbox; closing after opening restores the closed page. */
  lemma CloseButtonCloses(s: State, item: Item, target: LightboxTarget)
    ensures !LightboxShown(ClickLightbox(s, CloseButton))
    ensures target != CloseButton ==> ClickLightbox(s, target) == s
    ensures ClickLightbox(ClickItem(s, item), CloseButton) == s.(lightboxImage := None)
  {
  }
}
