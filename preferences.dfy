/** The onboarding page: pick categories by toggling cards, search them by name, and save
    the selection with the default notification setting. */
module Preferences {
  import opened Wrappers
  import Text
  import Seqs
  import Routes
  import Session

  datatype Category = Category(id: int, name: string)

  /** `prev.includes(id) ? prev.filter((item) => item !== id) : [...prev, id]`. */
  function ToggleCategory(prev: seq<int>, id: int): (r: seq<int>)
    ensures id in r <==> id !in prev
    ensures forall x :: x != id ==> (x in r <==> x in prev)
    ensures Seqs.NoDuplicates(prev) ==> Seqs.NoDuplicates(r)
    ensures id !in prev ==> r == prev + [id]
    ensures id in prev ==> (Seqs.IsSubseq(r, prev) && multiset(r)[id] == 0 &&
      forall i :: 0 <= i < |prev| && prev[i] != id ==> multiset(r)[prev[i]] == multiset(prev)[prev[i]])
  {
    if id in prev then
      Seqs.FilterNoDuplicates(prev, x => x != id);
      Seqs.Filter(prev, x => x != id)
    else prev + [id]
  }

  /** Toggling twice restores membership of every id; when `id` started unselected the
      original list comes back exactly. */
  lemma ToggleTwice(prev: seq<int>, id: int)
    ensures forall x :: x in ToggleCategory(ToggleCategory(prev, id), id) <==> x in prev
    ensures id !in prev ==> ToggleCategory(ToggleCategory(prev, id), id) == prev
  {
    if id !in prev {
      var p := (x: int) => x != id;
      Seqs.FilterAppend(prev, [id], p);
      assert Seqs.Filter([id], p) == [];
      Seqs.FilterAll(prev, p);
    }
  }

  /** `item.name.toLowerCase().includes(searchQuery.toLowerCase())`. */
  predicate CategoryMatches(c: Category, query: string) {
    Text.Includes(Text.Lower(c.name), Text.Lower(query))
  }

  /** `filteredCategories`. */
  function FilterCategories(categories: seq<Category>, query: string): (r: seq<Category>)
    ensures Seqs.IsSubseq(r, categories)
    ensures forall c :: c in r ==> c in categories && CategoryMatches(c, query)
    ensures forall i :: 0 <= i < |categories| && CategoryMatches(categories[i], query) ==> categories[i] in r
    ensures forall i :: 0 <= i < |categories| ==>
      multiset(r)[categories[i]] == if CategoryMatches(categories[i], query) then multiset(categories)[categories[i]] else 0
  {
    Seqs.Filter(categories, c => CategoryMatches(c, query))
  }

  /** An empty query shows every category. */
  lemma FilterCategoriesEmptyQuery(categories: seq<Category>)
    ensures FilterCategories(categories, "") == categories
  {
    forall i | 0 <= i < |categories| ensures CategoryMatches(categories[i], "") {
      Text.IncludesEmpty(Text.Lower(categories[i].name));
    }
    Seqs.FilterAll(categories, c => CategoryMatches(c, ""));
  }

  /** The save button: `disabled={selectedCategories.length === 0 || loading}`. */
  predicate SaveEnabled(selected: seq<int>, loading: bool) {
    |selected| != 0 && !loading
  }

  /** After a toggle the button is enabled exactly when nothing is loading and either `id` was
      just added or some other id stays selected. */
  lemma SaveEnabledAfterToggle(prev: seq<int>, id: int, loading: bool)
    ensures SaveEnabled(ToggleCategory(prev, id), loading) <==>
      !loading && (id !in prev || exists x :: x in prev && x != id)
  {
    var r := ToggleCategory(prev, id);
    if r != [] {
      assert r[0] in r;
    }
    if id in prev && (exists x :: x in prev && x != id) {
      var x :| x in prev && x != id;
      assert x in r;
    }
  }

  /** The body of `PUT /api/v1/user`. */
  datatype PreferencesUpdate = PreferencesUpdate(categories: seq<int>, notifications: map<string, bool>)

  /** The request `handleSubmit` sends: the stored token as bearer, and the body. */
  datatype SaveRequest = SaveRequest(bearer: Option<string>, body: PreferencesUpdate)

  /** What the page shows while the request is in flight. */
  datatype Busy = Busy(loading: bool, error: Option<string>)

  const FetchError := "Failed to fetch categories. Please try again later."
  const SaveError := "Failed to save preferences. Please try again."

  class PreferencesPage {
    const browser: Session.Browser
    var categories: seq<Category>
    var selected: seq<int>
    var searchQuery: string
    var loading: bool
    var error: Option<string>

    constructor (browser: Session.Browser)
      ensures this.browser == browser
      ensures categories == [] && selected == [] && searchQuery == "" && !loading && error == None
    {
      this.browser := browser;
      categories := [];
      selected := [];
      searchQuery := "";
      loading := false;
      error := None;
    }

    /** `fetchCategories`: the list on success, the error message on failure. */
    method FetchCategories(response: Option<seq<Category>>)
      modifies this
      ensures response.Some? ==> categories == response.value && error == old(error)
      ensures response.None? ==> categories == old(categories) && error == Some(FetchError)
      ensures selected == old(selected) && searchQuery == old(searchQuery) && loading == old(loading)
    {
      if response.Some? {
        categories := response.value;
      } else {
        error := Some(FetchError);
      }
    }

    /** `handleCategorySelection`. */
    method HandleCategorySelection(id: int)
      modifies this
      ensures selected == ToggleCategory(old(selected), id)
      ensures categories == old(categories) && searchQuery == old(searchQuery)
      ensures loading == old(loading) && error == old(error)
    {
      selected := ToggleCategory(selected, id);
    }

    /** The search field's `onChange`. */
    method SetSearchQuery(query: string)
      modifies this
      ensures searchQuery == query
      ensures categories == old(categories) && selected == old(selected)
      ensures loading == old(loading) && error == old(error)
    {
      searchQuery := query;
    }

    /** `handleSubmit`, with `saved` the outcome of the request: `loading` on and the error
        cleared while the request is in flight; afterwards `loading` off, the settings page
        on success and the error message on failure. The selection is never changed. */
    method HandleSubmit(saved: bool) returns (request: SaveRequest, during: Busy)
      modifies this, browser
      ensures request == SaveRequest(old(browser.StoredToken()),
        PreferencesUpdate(old(selected), map["push" := true]))
      ensures during == Busy(true, None)
      ensures !loading
      ensures error == if saved then None else Some(SaveError)
      ensures browser.history == old(browser.history) + (if saved then [Routes.SettingsPath] else [])
      ensures browser.storage == old(browser.storage)
      ensures selected == old(selected) && categories == old(categories) && searchQuery == old(searchQuery)
    {
      loading := true;
      error := None;
      during := Busy(loading, error);
      request := SaveRequest(browser.StoredToken(), PreferencesUpdate(selected, map["push" := true]));
      if saved {
        browser.Navigate(Routes.SettingsPath);
      } else {
        error := Some(SaveError);
      }
      loading := false;
    }
  }
}
