/** The search dropdown: which view it shows, where a result leads, and its footer. */
module SearchDropdown {
  import opened Wrappers
  import opened Text
  import opened SearchContext
  import Sidebar

  /** What the dropdown's body shows; `Blank` is the last branch of the view chain. */
  datatype View = Spinner | NoResults | ResultList | Hint | Blank

  /** The view chain as written: searching first, then an unanswered term, then the results,
    * then the hint for an empty term, and nothing otherwise. */
  function ViewOf(isSearching: bool, term: string, count: nat): View {
    if isSearching then Spinner
    else if term != "" && count == 0 then NoResults
    else if count > 0 then ResultList
    else if term == "" then Hint
    else Blank
  }

  /** Exactly one of the four views is chosen, each under its own condition; the last branch
    * of the chain is never reached. */
  lemma ViewPriority(isSearching: bool, term: string, count: nat)
    ensures ViewOf(isSearching, term, count) != Blank
    ensures ViewOf(isSearching, term, count) == Spinner <==> isSearching
    ensures ViewOf(isSearching, term, count) == NoResults <==> !isSearching && term != "" && count == 0
    ensures ViewOf(isSearching, term, count) == ResultList <==> !isSearching && count > 0
    ensures ViewOf(isSearching, term, count) == Hint <==> !isSearching && term == "" && count == 0
  {
  }

  /** `typePages`: the page each type of result leads to. */
  function TypePage(t: ResultType): string {
    match t
    case UserType => "usuarios"
    case ResourceType => "recursos"
    case SecurityType => "seguranca"
    case ActivityType => "dashboard"
  }

  /** `typeLabels`. */
  function TypeLabel(t: ResultType): string {
    match t
    case UserType => "Usuário"
    case ResourceType => "Recurso"
    case SecurityType => "Segurança"
    case ActivityType => "Atividade"
  }

  /** `typeColors`. */
  function TypeColor(t: ResultType): string {
    match t
    case UserType => "text-blue-500"
    case ResourceType => "text-green-500"
    case SecurityType => "text-red-500"
    case ActivityType => "text-purple-500"
  }

  /** Every result leads to a page of the side menu, and different types to different pages;
    * every type has a non-empty label and colour. */
  lemma RoutesAreMenuPages(t: ResultType, u: ResultType)
    ensures exists i :: 0 <= i < |Sidebar.MenuItems| && Sidebar.MenuItems[i].id == TypePage(t)
    ensures TypePage(t) == TypePage(u) ==> t == u
    ensures TypeLabel(t) != "" && TypeColor(t) != ""
  {
    var m := Sidebar.MenuItems;
    match t
    case UserType => assert m[3].id == TypePage(t);
    case ResourceType => assert m[2].id == TypePage(t);
    case SecurityType => assert m[1].id == TypePage(t);
    case ActivityType => assert m[0].id == TypePage(t);
  }

  /** The plural suffix of the footer. */
  function Plural(count: nat): string {
    if count != 1 then "s" else ""
  }

  /** The footer line: shown only when there are results. */
  function Footer(count: nat): Option<string> {
    if count > 0 then
      Some(DecimalString(count) + " resultado" + Plural(count) + " encontrado" + Plural(count) +
        " • Clique em um item para navegar")
    else None
  }

  /** The footer is shown exactly when there are results, starts with their number, and is in
    * the plural exactly when that number is not one. */
  lemma FooterSpec(count: nat)
    ensures Footer(count).Some? <==> count > 0
    ensures Plural(count) == "s" <==> count != 1
    ensures count > 0 ==> Footer(count).value[..|DecimalString(count)|] == DecimalString(count)
  {
  }

  /** One result is announced in the singular, two in the plural. */
  lemma FooterWording()
    ensures Footer(1).value[..22] == "1 resultado encontrado"
    ensures Footer(2).value[..24] == "2 resultados encontrados"
  {
    assert DecimalString(1) == "1" && DecimalString(2) == "2";
  }
}
