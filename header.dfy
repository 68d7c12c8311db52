/**
 * The page header: the language switch, the initials of the user, the search box that opens the
 * search dropdown, and what a click on a search result does.
 */
module Header {
  import opened Wrappers
  import opened Text
  import opened Types
  import opened SearchContext
  import SearchDropdown
  import Language
  import Theme
  import Storage

  /** `toggleLanguage`'s choice: English from Portuguese, Portuguese from anything else. */
  function ToggledLanguage(language: string): string {
    if language == "pt-BR" then "en-US" else "pt-BR"
  }

  /** The switch always lands on one of the two table languages; from either of them, two
    * switches give the language back; from any other value, one switch gives Portuguese. */
  lemma ToggleLanguageSpec(language: string)
    ensures ToggledLanguage(language) == "pt-BR" || ToggledLanguage(language) == "en-US"
    ensures language != "pt-BR" ==> ToggledLanguage(language) == "pt-BR"
    ensures language == "pt-BR" || language == "en-US" ==> ToggledLanguage(ToggledLanguage(language)) == language
    ensures language == "pt-BR" || language == "en-US" ==> ToggledLanguage(language) != language
  {
  }

  /** The first characters of the words, an empty word giving nothing. */
  function FirstChars(words: seq<string>): string {
    if words == [] then ""
    else FirstChars(words[..|words| - 1]) + (if words[|words| - 1] == "" then "" else [words[|words| - 1][0]])
  }

  /** The avatar text: the first character of each space-separated word of the name. */
  function Initials(name: string): string {
    FirstChars(Split(name, ' '))
  }

  /** There are never more initials than words, and there is one initial per word when no word
    * is empty; each initial is the first character of a word, so none is a space. */
  lemma {:induction false} FirstCharsSpec(words: seq<string>)
    ensures |FirstChars(words)| <= |words|
    ensures (forall k :: 0 <= k < |words| ==> words[k] != "") ==> |FirstChars(words)| == |words|
    ensures forall i :: 0 <= i < |FirstChars(words)| ==> exists k :: 0 <= k < |words| && words[k] != "" && FirstChars(words)[i] == words[k][0]
  {
    if words != [] {
      var init := words[..|words| - 1];
      FirstCharsSpec(init);
      var last := words[|words| - 1];
      var r := FirstChars(words);
      forall i | 0 <= i < |r|
        ensures exists k :: 0 <= k < |words| && words[k] != "" && r[i] == words[k][0]
      {
        if i < |FirstChars(init)| {
          var k :| 0 <= k < |init| && init[k] != "" && FirstChars(init)[i] == init[k][0];
          assert words[k] == init[k];
        } else {
          assert r[i] == last[0] && words[|words| - 1] == last;
        }
      }
    }
  }

  /** The initials of a name are at most as many as its space-separated words and hold no
    * space. */
  lemma InitialsSpec(name: string)
    ensures |Initials(name)| <= |Split(name, ' ')|
    ensures ' ' !in Initials(name)
  {
    var words := Split(name, ' ');
    FirstCharsSpec(words);
    SplitJoin(name, ' ');
  }

  /** The header's own state, with the providers it drives. `currentPage` is the page the
    * header's page-change callback last set, and `canNavigate` says whether that callback was
    * given. */
  class HeaderView {
    var isSearchOpen: bool
    var currentPage: string
    const canNavigate: bool
    const search: SearchProvider
    const language: Language.LanguageProvider
    const theme: Theme.ThemeProvider

    constructor (page: string, canNavigate: bool, search: SearchProvider,
                 language: Language.LanguageProvider, theme: Theme.ThemeProvider)
      ensures !isSearchOpen && currentPage == page && this.canNavigate == canNavigate
      ensures this.search == search && this.language == language && this.theme == theme
    {
      isSearchOpen := false;
      currentPage := page;
      this.canNavigate := canNavigate;
      this.search := search;
      this.language := language;
      this.theme := theme;
    }

    /** The avatar text for the logged-in user; with nobody logged in, nothing. */
    function Avatar(user: Option<User>): Option<string> {
      if user.Some? then Some(Initials(user.value.nome)) else None
    }

    /** `handleSearchFocus`: the dropdown opens. */
    method HandleSearchFocus()
      modifies this
      ensures isSearchOpen && currentPage == old(currentPage)
    {
      isSearchOpen := true;
    }

    /** `handleSearchClose`: the dropdown closes. */
    method HandleSearchClose()
      modifies this
      ensures !isSearchOpen && currentPage == old(currentPage)
    {
      isSearchOpen := false;
    }

    /** Typing in the header's box writes the shared search term. */
    method TypeSearch(term: string)
      modifies search
      ensures search.searchTerm == term && search.searchResults == Search(term, search.db)
    {
      search.SetSearchTerm(term);
    }

    /** `toggleLanguage`: the switched language is made current and stored. */
    method ToggleLanguage()
      modifies language, language.store
      ensures language.language == ToggledLanguage(old(language.language))
      ensures language.store.items == old(language.store.items)[Storage.LanguageKey := language.language]
    {
      var newLanguage := ToggledLanguage(language.language);
      language.ChangeLanguage(newLanguage);
    }

    /** A click on a search result: the page of the result's type is opened (when the header
      * was given a page-change callback), the dropdown closes and the search is cleared. */
    method HandleResultClick(result: SearchResult)
      modifies this, search
      ensures canNavigate ==> currentPage == SearchDropdown.TypePage(result.kind)
      ensures !canNavigate ==> currentPage == old(currentPage)
      ensures !isSearchOpen
      ensures search.searchTerm == "" && search.searchResults == []
    {
      var page := SearchDropdown.TypePage(result.kind);
      if canNavigate {
        currentPage := page;
      }
      isSearchOpen := false;
      search.ClearSearch();
    }
  }

  /** Bruce Wayne's avatar reads "BW". */
  lemma BruceInitials()
    ensures Initials("Bruce Wayne") == "BW"
  {
    assert "Bruce Wayne" == "Bruce" + [' '] + "Wayne";
    SplitAfterWord("Bruce", ' ', "Wayne");
    SplitWord("Wayne", ' ');
    var words := ["Bruce", "Wayne"];
    assert Split("Bruce Wayne", ' ') == words;
    FirstCharsOfTwo("Bruce", "Wayne");
  }

  lemma FirstCharsOfTwo(a: string, b: string)
    requires a != "" && b != ""
    ensures FirstChars([a, b]) == [a[0], b[0]]
  {
    assert [a, b][..1] == [a];
    assert [a][..0] == [];
    assert FirstChars([a]) == [a[0]];
  }
}
