/**
 * The home page's portfolio section: six fixed items, category buttons and a
 * modal.  Its state is the active category and the selected item, each
 * replaced as a whole by a click.
 */
module PortfolioSection {
  import opened Wrappers
  import opened CategoryFilter
  import opened Assets

  datatype PortfolioItem = PortfolioItem(id: int, title: string, category: string, image: string, description: string)

  function CategoryOf(item: PortfolioItem): string
  {
    item.category
  }

  const PortfolioItems: seq<PortfolioItem> := [
    PortfolioItem(1, "Golden Hour Wedding", "Weddings", WeddingPicture,
                  "A romantic wedding ceremony captured during golden hour"),
    PortfolioItem(2, "Executive Portrait", "Portraits", PortraitPicture,
                  "Professional business portrait with elegant studio lighting"),
    PortfolioItem(3, "Corporate Headshots", "Corporate", PortraitPicture,
                  "Clean and professional corporate headshot session"),
    PortfolioItem(4, "Intimate Wedding", "Weddings", WeddingPicture,
                  "Beautiful intimate wedding celebration"),
    PortfolioItem(5, "Fashion Portrait", "Portraits", PortraitPicture,
                  "Creative fashion portrait with dramatic lighting"),
    PortfolioItem(6, "Product Photography", "Products", PortraitPicture,
                  "High-end product photography for luxury brands")
  ]

  /** The filter buttons, in display order. */
  const Categories: seq<string> := ["All", "Weddings", "Portraits", "Corporate", "Products"]

  datatype State = State(activeCategory: string, selectedImage: Option<PortfolioItem>)

  /** `useState("All")` and `useState(null)`. */
  const Initial := State(All, None)

  /** `filteredItems`. */
  function FilteredItems(s: State): (r: seq<PortfolioItem>)
    ensures s.activeCategory == All ==> r == PortfolioItems
    ensures s.activeCategory != All ==>
              forall x :: x in r <==> x in PortfolioItems && x.category == s.activeCategory
    ensures |r| <= |PortfolioItems| && IsSubsequence(r, PortfolioItems)
  {
    Filtered(PortfolioItems, CategoryOf, s.activeCategory)
  }

  /** A category button. */
  function ChooseCategory(s: State, category: string): (t: State)
    ensures t.activeCategory == category && t.selectedImage == s.selectedImage
  {
    s.(activeCategory := category)
  }

  /** A click on an item of the grid selects it. */
  function SelectItem(s: State, item: PortfolioItem): (t: State)
    ensures t.selectedImage == Some(item) && ModalShown(t) && t.activeCategory == s.activeCategory
  {
    s.(selectedImage := Some(item))
  }

  /**
   * Where a click inside the open modal lands.  The backdrop's handler closes
   * the modal, and nothing stops a click from bubbling up to it, so a click
   * anywhere inside closes it; the close button also has its own handler.
   */
  datatype ModalTarget = Backdrop | Picture | Caption | CloseButton

  function ClickModal(s: State, target: ModalTarget): (t: State)
    ensures !ModalShown(t) && t.activeCategory == s.activeCategory
  {
    s.(selectedImage := None)
  }

  /** `{selectedImage && ...}`. */
  predicate ModalShown(s: State)
  {
    s.selectedImage.Some?
  }

  /** The section opens on all six items, with no item selected. */
  lemma InitialShowsEverything()
    ensures FilteredItems(Initial) == PortfolioItems && |FilteredItems(Initial)| == 6
    ensures !ModalShown(Initial)
  {
  }

  /** Choosing a category twice shows what choosing it once does. */
  lemma ChoosingAgainChangesNothing(s: State, category: string)
    ensures FilteredItems(ChooseCategory(ChooseCategory(s, category), category)) == FilteredItems(ChooseCategory(s, category))
    ensures Filtered(FilteredItems(ChooseCategory(s, category)), CategoryOf, category) == FilteredItems(ChooseCategory(s, category))
  {
    FilteredIdempotent(PortfolioItems, CategoryOf, category);
  }

  /**
   * "All" is the first button and no item's category; every item's category
   * is one of the other buttons.
   */
  lemma RealCategoriesCoverItems()
    ensures |Categories| == 5 && Categories[0] == All && All !in Categories[1..]
    ensures forall i :: 0 <= i < |PortfolioItems| ==> CategoryOf(PortfolioItems[i]) in Categories[1..]
  {
    assert Categories[1..] == ["Weddings", "Portraits", "Corporate", "Products"];
  }

  /** Choosing the category of item `i` shows at least that item. */
  lemma ItemShowsItsCategory(i: nat, category: string)
    requires i < |PortfolioItems| && CategoryOf(PortfolioItems[i]) == category
    ensures PortfolioItems[i] in FilteredItems(ChooseCategory(Initial, category))
  {
    CategoryOfAnItemShows(PortfolioItems, CategoryOf, i);
  }

  /** Each button other than "All" shows at least one item. */
  lemma EveryCategoryShowsSomething(category: string)
    requires category in Categories[1..]
    ensures FilteredItems(ChooseCategory(Initial, category)) != []
  {
    assert Categories[1..] == ["Weddings", "Portraits", "Corporate", "Products"];
    if category == "Weddings" {
      ItemShowsItsCategory(0, category);
    } else if category == "Portraits" {
      ItemShowsItsCategory(1, category);
    } else if category == "Corporate" {
      ItemShowsItsCategory(2, category);
    } else {
      ItemShowsItsCategory(5, category);
    }
  }

  /** The grid after a category button shows that category of the items. */
  lemma ChoosingFilters(s: State, category: string)
    ensures FilteredItems(ChooseCategory(s, category)) == Filtered(PortfolioItems, CategoryOf, category)
  {
  }

  /**
   * The grids shown for the four buttons other than "All" (`a` to `d` in
   * display order; see ChoosingFilters) split the six items between them:
   * each item lands in exactly one grid.
   */
  lemma CategoriesPartitionItems(a: string, b: string, c: string, d: string)
    requires Categories[1..] == [a, b, c, d]
    ensures var w, x, y, z := Filtered(PortfolioItems, CategoryOf, a), Filtered(PortfolioItems, CategoryOf, b),
                              Filtered(PortfolioItems, CategoryOf, c), Filtered(PortfolioItems, CategoryOf, d);
            multiset(w) + multiset(x) + multiset(y) + multiset(z) == multiset(PortfolioItems) &&
            |w| + |x| + |y| + |z| == |PortfolioItems|
  {
    RealCategoriesCoverItems();
    assert a == "Weddings" && b == "Portraits" && c == "Corporate" && d == "Products";
    FilteredByFourCategories(PortfolioItems, CategoryOf, a, b, c, d);
  }

  /** Selecting a shown item opens the modal on that item and leaves the grid as it is. */
  lemma SelectOpensModal(s: State, item: PortfolioItem)
    requires item in FilteredItems(s)
    ensures ModalShown(SelectItem(s, item)) && SelectItem(s, item).selectedImage == Some(item)
    ensures FilteredItems(SelectItem(s, item)) == FilteredItems(s)
  {
  }

  /** Any click inside the modal closes it; closing after selecting restores the closed section. */
  lemma AnyModalClickCloses(s: State, item: PortfolioItem, target: ModalTarget)
    ensures !ModalShown(ClickModal(s, target))
    ensures ClickModal(SelectItem(s, item), target) == s.(selectedImage := None)
  {
  }
}
