/** pages/MenuManagement.tsx: the catalogue page. The name search, the
    product form's draft and the record it is saved as, the category list
    and the state the two dialogs keep while saving. */
module MenuManagement {
  import opened Types
  import Seqs
  import Text

  function NameMatches(term: string): Product -> bool
  {
    (p: Product) => Text.MatchesSearch(p.name, term)
  }

  /** `filtered`: the products, active or not, whose name contains the
      search term, ignoring case, in catalogue order. */
  function Search(products: seq<Product>, term: string): (r: seq<Product>)
    ensures |r| <= |products|
    ensures forall i :: 0 <= i < |r| ==> r[i] in products && Text.MatchesSearch(r[i].name, term)
    ensures forall i :: 0 <= i < |products| && Text.MatchesSearch(products[i].name, term) ==> products[i] in r
    ensures Seqs.Subsequence(r, products)
    ensures |r| == Seqs.Count(products, NameMatches(term))
  {
    Seqs.Filter(products, NameMatches(term))
  }

  /** An empty search lists the whole catalogue, inactive products
      included, in its own order. */
  lemma EmptySearchKeepsAll(products: seq<Product>)
    ensures Search(products, "") == products
  {
    forall i | 0 <= i < |products| ensures NameMatches("")(products[i]) {
      Text.EmptySearchMatchesAll(products[i].name);
    }
    Seqs.FilterKeepsAll(products, NameMatches(""));
  }

  /** The product form's contents (`Partial<Product>`): every field may be
      absent. A price the number parser could not read is absent too. */
  datatype ProductDraft = ProductDraft(
    id: Option<string>,
    name: Option<string>,
    description: Option<string>,
    price: Option<int>,
    category: Option<string>,
    imageUrl: Option<string>,
    isActive: Option<bool>,
    featuredDay: Option<int>)

  const DefaultCategory := "Geral"
  const PlaceholderImage := "https://picsum.photos/400/300"

  /** `categories[0] || 'Geral'` */
  function FallbackCategory(categories: seq<string>): (r: string)
    ensures r != ""
    ensures |categories| > 0 && categories[0] != "" ==> r == categories[0]
    ensures !(|categories| > 0 && categories[0] != "") ==> r == DefaultCategory
  {
    if |categories| > 0 && categories[0] != "" then categories[0] else DefaultCategory
  }

  /** The record `handleSaveProduct` sends. An empty or absent id gets the
      fresh one; an absent name or description becomes empty; an absent or
      zero price becomes 0; an empty category falls back to the first
      category, then to 'Geral'; an empty image falls back to the
      placeholder; only an absent active flag becomes true; weekday -1
      means not featured, and every other weekday is kept. */
  function Normalize(d: ProductDraft, categories: seq<string>, freshId: string): (p: Product)
    ensures p.id == if Filled(d.id) then d.id.value else freshId
    ensures p.name == if d.name.Some? then d.name.value else ""
    ensures p.description == if d.description.Some? then d.description.value else ""
    ensures p.price == if d.price.Some? then d.price.value else 0
    ensures p.category == if Filled(d.category) then d.category.value else FallbackCategory(categories)
    ensures p.category != ""
    ensures p.imageUrl == if Filled(d.imageUrl) then d.imageUrl.value else PlaceholderImage
    ensures p.isActive == (d.isActive != Some(false))
    ensures p.featuredDay == if d.featuredDay == Some(-1) then None else d.featuredDay
  {
    Product(
      id := if Filled(d.id) then d.id.value else freshId,
      name := if Filled(d.name) then d.name.value else "",
      description := if Filled(d.description) then d.description.value else "",
      price := if d.price.Some? && d.price.value != 0 then d.price.value else 0,
      category := if Filled(d.category) then d.category.value else FallbackCategory(categories),
      imageUrl := if Filled(d.imageUrl) then d.imageUrl.value else PlaceholderImage,
      isActive := if d.isActive.Some? then d.isActive.value else true,
      featuredDay := if d.featuredDay == Some(-1) then None else d.featuredDay)
  }

  /** The draft the edit button opens: the product's own fields. */
  function FromProduct(p: Product): (d: ProductDraft)
    ensures d.id == Some(p.id) && d.name == Some(p.name) && d.price == Some(p.price)
    ensures d.description == Some(p.description) && d.category == Some(p.category)
    ensures d.imageUrl == Some(p.imageUrl)
    ensures d.isActive == Some(p.isActive) && d.featuredDay == p.featuredDay
  {
    ProductDraft(Some(p.id), Some(p.name), Some(p.description), Some(p.price),
                 Some(p.category), Some(p.imageUrl), Some(p.isActive), p.featuredDay)
  }

  /** Saving an existing product unchanged stores it unchanged, as long as
      its id, category and image are not empty and its weekday is not -1;
      an explicit `false` for the active flag in particular survives. */
  lemma SaveUneditedKeepsProduct(p: Product, categories: seq<string>, freshId: string)
    requires p.id != "" && p.category != "" && p.imageUrl != "" && p.featuredDay != Some(-1)
    ensures Normalize(FromProduct(p), categories, freshId) == p
  {
  }

  /** The 'Novo Produto' button's draft: the first category (or empty),
      an empty description, weekday -1 and active. */
  function NewDraft(categories: seq<string>): (d: ProductDraft)
    ensures d.id.None? && d.name.None? && d.price.None? && d.imageUrl.None?
    ensures d.category == Some(if |categories| > 0 then categories[0] else "")
    ensures d.description == Some("") && d.featuredDay == Some(-1) && d.isActive == Some(true)
  {
    ProductDraft(None, None, Some(""), None, Some(if |categories| > 0 then categories[0] else ""),
                 None, Some(true), Some(-1))
  }

  /** A new product saved without editing is an active, unfeatured,
      nameless product costing 0, with a fresh id, the placeholder image
      and a non-empty category. */
  lemma SaveUntouchedNewDraft(categories: seq<string>, freshId: string)
    ensures var p := Normalize(NewDraft(categories), categories, freshId);
      && p.id == freshId
      && p.name == "" && p.description == "" && p.price == 0
      && p.category == FallbackCategory(categories)
      && p.imageUrl == PlaceholderImage && p.isActive && p.featuredDay.None?
  {
  }

  /** What the category form did. */
  datatype CategoryOutcome = Blank | Duplicate | Added(categories: seq<string>)

  predicate NoDuplicates(s: seq<string>)
  {
    forall i, j :: 0 <= i < j < |s| ==> s[i] != s[j]
  }

  /** `handleAddCategory`'s decision: a blank name is ignored, a trimmed
      name already listed is refused, anything else is appended trimmed. */
  function WithCategory(categories: seq<string>, input: string): (r: CategoryOutcome)
    ensures r == Blank <==> Text.Trim(input) == ""
    ensures r == Duplicate <==> Text.Trim(input) != "" && Text.Trim(input) in categories
    ensures r.Added? ==> r.categories == categories + [Text.Trim(input)]
    ensures r.Added? && NoDuplicates(categories) ==> NoDuplicates(r.categories)
  {
    var name := Text.Trim(input);
    if name == "" then Blank
    else if name in categories then Duplicate
    else
      var r := categories + [name];
      assert NoDuplicates(categories) ==> NoDuplicates(r) by {
        if NoDuplicates(categories) {
          forall i, j | 0 <= i < j < |r| ensures r[i] != r[j] {
            if j == |categories| {
              assert r[i] == categories[i];
            }
          }
        }
      }
      Added(r)
  }

  /** Submitting the same name twice adds it once: the second time it is
      refused as a duplicate. */
  lemma AddTwiceIsDuplicate(categories: seq<string>, input: string)
    requires WithCategory(categories, input).Added?
    ensures WithCategory(WithCategory(categories, input).categories, input) == Duplicate
  {
    var r := WithCategory(categories, input).categories;
    assert r[|r| - 1] == Text.Trim(input);
  }

  /** The category dialog's state: the list and the text box. */
  class CategoryEditor {
    var categories: seq<string>
    var newCategoryName: string

    constructor (categories: seq<string>)
      ensures this.categories == categories && newCategoryName == ""
    {
      this.categories := categories;
      newCategoryName := "";
    }

    /** The text box's change handler. */
    method Type(text: string)
      modifies this`newCategoryName
      ensures newCategoryName == text
    {
      newCategoryName := text;
    }

    /** `handleAddCategory`: `alerted` is the 'already exists' alert. The
      text box is cleared only when a category was added; the list never
      gains a duplicate. */
    method AddCategory() returns (alerted: bool)
      modifies this`categories, this`newCategoryName
      ensures alerted <==> WithCategory(old(categories), old(newCategoryName)) == Duplicate
      ensures WithCategory(old(categories), old(newCategoryName)).Added? ==>
        categories == WithCategory(old(categories), old(newCategoryName)).categories && newCategoryName == ""
      ensures !WithCategory(old(categories), old(newCategoryName)).Added? ==>
        categories == old(categories) && newCategoryName == old(newCategoryName)
      ensures NoDuplicates(old(categories)) ==> NoDuplicates(categories)
    {
      var outcome := WithCategory(categories, newCategoryName);
      alerted := outcome == Duplicate;
      if outcome.Added? {
        categories := outcome.categories;
        newCategoryName := "";
      }
    }
  }

  /** The product dialog's state: the draft, whether the dialog shows and
      whether a save is in flight. */
  class ProductEditor {
    var editing: Option<ProductDraft>
    var showModal: bool
    var saving: bool

    constructor ()
      ensures editing.None? && !showModal && !saving
    {
      editing := None;
      showModal := false;
      saving := false;
    }

    /** 'Novo Produto' */
    method OpenNew(categories: seq<string>)
      modifies this`editing, this`showModal
      ensures editing == Some(NewDraft(categories)) && showModal
    {
      editing := Some(NewDraft(categories));
      showModal := true;
    }

    /** A product card's edit button. */
    method OpenEdit(p: Product)
      modifies this`editing, this`showModal
      ensures editing == Some(FromProduct(p)) && showModal
    {
      editing := Some(FromProduct(p));
      showModal := true;
    }

    /** The dialog's close and 'Cancelar' buttons: the draft is kept. */
    method Close()
      modifies this`showModal
      ensures !showModal
    {
      showModal := false;
    }

    /** `handleSaveProduct`. `saveRejection` is the rejection, if any, of
      the `saveProduct` promise the page is given; the app's `saveProduct`
      discards the store's error answer, so only a request that throws
      rejects. Nothing happens without a draft; otherwise the normalised
      record is sent, the dialog closes and the draft is dropped only when
      the promise resolves, an alert is raised when it rejects, and
      `saving` ends false. */
    method Save(categories: seq<string>, freshId: string, saveRejection: Option<string>)
      returns (sent: Option<Product>, alerted: bool)
      modifies this`editing, this`showModal, this`saving
      ensures old(editing).None? ==>
        sent.None? && !alerted && editing == old(editing) && showModal == old(showModal) && saving == old(saving)
      ensures old(editing).Some? ==>
        && sent == Some(Normalize(old(editing).value, categories, freshId))
        && !saving
        && (alerted <==> saveRejection.Some?)
        && (saveRejection.None? ==> editing.None? && !showModal)
        && (saveRejection.Some? ==> editing == old(editing) && showModal == old(showModal))
    {
      alerted := false;
      if editing.None? {
        sent := None;
        return;
      }
      saving := true;
      sent := Some(Normalize(editing.value, categories, freshId));
      if saveRejection.None? {
        showModal := false;
        editing := None;
      } else {
        alerted := true;
      }
      saving := false;
    }
  }
}
