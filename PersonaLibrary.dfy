/** The persona library page: a fixed catalog of personas, the filter
    criteria chosen in the navigation bar, and the filtered list it shows
    together with its count. */
module PersonaLibrary {
  import opened Wrappers
  import opened JsString
  import opened ArrayFilter

  /** A catalog entry. The icon component is presentation only. */
  datatype Persona = Persona(
    id: string,
    name: string,
    role: string,
    experience: string,
    traits: seq<string>,
    description: string)

  /** The specialty menu. */
  const Specialties: seq<string> := ["Oncologist", "Dermatologist", "Cardiologist"]

  /** The trait menu. */
  const PersonaTraits: seq<string> := ["Evidence-driven", "Brand loyalist", "Guidelines-focused", "Humorous"]

  const SarahChen := Persona(
    "innovator", "Dr. Sarah Chen", "Cardiologist", "14 yrs",
    ["Cautious", "Evidence-driven switcher", "Brand Loyalist", "Sticks to few key things", "Warm and Approachable"],
    "Cautious oncologist, loyal to evidence and brands, approachable with focused care.")

  const MichaelTorres := Persona(
    "loyalist", "Dr. Michael Torres", "Dermatologist", "10 yrs",
    ["Brand loyalist", "Moderately evidence-aware", "Elaborate and Detailed",
     "Flexible in adapting new therapy areas", "Early Adopter", "Frequent Switcher"],
    "Brand-loyal dermatologist, detailed yet flexible, adapts early and switches frequently.")

  const EmmaRodriguez := Persona(
    "guide", "Dr. Emma Rodriguez", "Oncologist", "24 yrs",
    ["Humorous", "Data-driven", "Reactive", "Referencing guidelines", "Engaging", "Diverse range of topics"],
    "Engaging oncologist, humorous and reactive, blending data with diverse guideline-based care.")

  /** The catalog, in display order. */
  const Personas: seq<Persona> := [SarahChen, MichaelTorres, EmmaRodriguez]

  /** The page's filter state. `None` is `undefined`, which is what the
      navigation bar's "none" entry selects. */
  datatype Criteria = Criteria(specialty: Option<string>, selectedTrait: Option<string>, searchTerm: string)

  /** The page's initial state: no specialty, no trait, empty search. */
  const NoCriteria := Criteria(None, None, "")

  /** The specialty test. With no specialty chosen (absent or empty) every
      persona passes; otherwise the role must equal it exactly, case and
      all. */
  predicate MatchesSpecialty(c: Criteria, p: Persona)
    ensures !Truthy(c.specialty) ==> MatchesSpecialty(c, p)
    ensures Truthy(c.specialty) ==> (MatchesSpecialty(c, p) <==> p.role == c.specialty.value)
  {
    Truthy(c.specialty) ==> p.role == c.specialty.value
  }

  /** The trait test. With no trait chosen (absent or empty) every persona
      passes; otherwise some trait must equal the chosen one once both are
      lowercased. */
  predicate MatchesTrait(c: Criteria, p: Persona)
    ensures !Truthy(c.selectedTrait) ==> MatchesTrait(c, p)
    ensures Truthy(c.selectedTrait) && c.selectedTrait.value in p.traits ==> MatchesTrait(c, p)
    ensures Truthy(c.selectedTrait) && MatchesTrait(c, p) ==>
      exists t | t in p.traits :: |t| == |c.selectedTrait.value|
  {
    Truthy(c.selectedTrait) ==>
      exists t | t in p.traits :: ToLowerCase(t) == ToLowerCase(c.selectedTrait.value)
  }

  /** The search test: the lowercased search term occurs in the lowercased
      name, role, some trait, or description. Applied unconditionally, with
      no trimming. The empty term, and any term found as typed in the name,
      role or description, passes. */
  predicate MatchesSearch(c: Criteria, p: Persona)
    ensures c.searchTerm == "" ==> MatchesSearch(c, p)
    ensures Includes(p.name, c.searchTerm) ==> MatchesSearch(c, p)
    ensures Includes(p.role, c.searchTerm) ==> MatchesSearch(c, p)
    ensures Includes(p.description, c.searchTerm) ==> MatchesSearch(c, p)
  {
    assert c.searchTerm == "" ==> ToLowerCase(c.searchTerm) == "";
    IncludesEmpty(ToLowerCase(p.name));
    IncludesToLowerCase(p.name, c.searchTerm);
    IncludesToLowerCase(p.role, c.searchTerm);
    IncludesToLowerCase(p.description, c.searchTerm);
    var term := ToLowerCase(c.searchTerm);
    || Includes(ToLowerCase(p.name), term)
    || Includes(ToLowerCase(p.role), term)
    || (exists t | t in p.traits :: Includes(ToLowerCase(t), term))
    || Includes(ToLowerCase(p.description), term)
  }

  /** The three predicates joined by AND. */
  predicate Matches(c: Criteria, p: Persona) {
    MatchesSpecialty(c, p) && MatchesTrait(c, p) && MatchesSearch(c, p)
  }

  function BySpecialty(c: Criteria): Persona -> bool { p => MatchesSpecialty(c, p) }
  function ByTrait(c: Criteria): Persona -> bool { p => MatchesTrait(c, p) }
  function BySearch(c: Criteria): Persona -> bool { p => MatchesSearch(c, p) }
  function ByAll(c: Criteria): Persona -> bool { p => Matches(c, p) }

  /** The filtered list: the specialty, trait and search filters applied
      one after the other, in that order. */
  function FilteredPersonas(catalog: seq<Persona>, c: Criteria): (r: seq<Persona>)
    ensures |r| <= |catalog|
    ensures forall p :: p in r ==> Matches(c, p)
  {
    Filter(Filter(Filter(catalog, BySpecialty(c)), ByTrait(c)), BySearch(c))
  }

  /** The chain is a single filter by the conjunction of its predicates. */
  lemma FilteredIsOneFilter(catalog: seq<Persona>, c: Criteria)
    ensures FilteredPersonas(catalog, c) == Filter(catalog, ByAll(c))
  {
    var both := (p: Persona) => MatchesSpecialty(c, p) && MatchesTrait(c, p);
    FilterFuse(catalog, BySpecialty(c), ByTrait(c), both);
    FilterFuse(catalog, both, BySearch(c), ByAll(c));
  }

  /** A persona is shown iff it is in the catalog and the specialty, trait
      and search predicates all hold for it. */
  lemma FilteredMembership(catalog: seq<Persona>, c: Criteria, p: Persona)
    ensures p in FilteredPersonas(catalog, c) <==>
      p in catalog && MatchesSpecialty(c, p) && MatchesTrait(c, p) && MatchesSearch(c, p)
  {
    FilteredIsOneFilter(catalog, c);
    FilterMembership(catalog, ByAll(c), p);
  }

  /** The result is the catalog read at exactly the matching positions, in
      increasing order: a subsequence, with no reordering and no dedup. */
  lemma FilteredInCatalogOrder(catalog: seq<Persona>, c: Criteria) returns (idx: seq<nat>)
    ensures SelectsInOrder(FilteredPersonas(catalog, c), catalog, ByAll(c), idx)
  {
    FilteredIsOneFilter(catalog, c);
    idx := FilterSelectsInOrder(catalog, ByAll(c));
  }

  /** Filtering the filtered list again with the same criteria changes
      nothing. */
  lemma FilteredIdempotent(catalog: seq<Persona>, c: Criteria)
    ensures FilteredPersonas(FilteredPersonas(catalog, c), c) == FilteredPersonas(catalog, c)
  {
    var r := FilteredPersonas(catalog, c);
    FilteredIsOneFilter(r, c);
    FilterKeepsAll(r, ByAll(c));
  }

  /** With no specialty, no trait and an empty search term the whole
      catalog is shown, in order: every string includes "". */
  lemma NoCriteriaShowsCatalog(catalog: seq<Persona>, c: Criteria)
    requires !Truthy(c.specialty) && !Truthy(c.selectedTrait) && c.searchTerm == ""
    ensures FilteredPersonas(catalog, c) == catalog
  {
    forall p | p in catalog
      ensures Matches(c, p)
    {
      assert ToLowerCase(c.searchTerm) == "";
      IncludesEmpty(ToLowerCase(p.name));
    }
    FilteredIsOneFilter(catalog, c);
    FilterKeepsAll(catalog, ByAll(c));
  }

  /** With a specialty chosen, every shown persona has exactly that role. */
  lemma SpecialtyIsExactRole(catalog: seq<Persona>, c: Criteria, p: Persona)
    requires Truthy(c.specialty) && p in FilteredPersonas(catalog, c)
    ensures p.role == c.specialty.value
  {
  }

  /** With a trait chosen, every shown persona carries a trait equal to it
      up to case. */
  lemma TraitIsCaseInsensitiveEquality(catalog: seq<Persona>, c: Criteria, p: Persona)
    requires Truthy(c.selectedTrait) && p in FilteredPersonas(catalog, c)
    ensures exists t | t in p.traits :: ToLowerCase(t) == ToLowerCase(c.selectedTrait.value)
  {
  }

  /** The search term is matched as typed: a term of spaces only keeps a
      persona only if one of its fields holds a space. */
  lemma SearchTermIsNotTrimmed(c: Criteria, p: Persona)
    requires c.searchTerm == " "
    requires ' ' !in p.name && ' ' !in p.role && ' ' !in p.description
    requires forall t :: t in p.traits ==> ' ' !in t
    ensures !MatchesSearch(c, p)
  {
    assert ToLowerCase(c.searchTerm) == " ";
    forall s: string | Includes(ToLowerCase(s), " ")
      ensures ' ' in s
    {
      if ' ' !in ToLowerCase(s) {
        NotIncludedWithoutChar(ToLowerCase(s), " ", 0);
      }
      var i :| 0 <= i < |s| && ToLowerCase(s)[i] == ' ';
      assert s[i] == ' ';
    }
  }

  // ------------------------------------------------------ the rendered page

  /** The card area shows the cards, or the "No personas found" message. */
  datatype CardArea = Cards(shown: seq<Persona>) | NoPersonasFound

  /** The parts of the page that depend on the filter: the card area and
      the number in the footer. */
  datatype LibraryPage = LibraryPage(area: CardArea, count: nat)

  function RenderLibrary(c: Criteria): (page: LibraryPage)
    ensures page.count == |FilteredPersonas(Personas, c)|
    ensures page.count <= |Personas|
    ensures page.area.NoPersonasFound? <==> page.count == 0
    ensures page.area.Cards? ==> page.area.shown == FilteredPersonas(Personas, c) && |page.area.shown| == page.count
  {
    var filtered := FilteredPersonas(Personas, c);
    LibraryPage(if |filtered| > 0 then Cards(filtered) else NoPersonasFound, |filtered|)
  }

  /** On first render every persona is shown and the footer counts all of
      them. */
  lemma InitialPageShowsEveryone()
    ensures RenderLibrary(NoCriteria) == LibraryPage(Cards(Personas), 3)
  {
    NoCriteriaShowsCatalog(Personas, NoCriteria);
  }

  // ------------------------------------------------ the catalog as shipped

  /** Choosing "Oncologist" shows Dr. Emma Rodriguez only: Dr. Sarah Chen's
      description mentions oncology but her role is Cardiologist. */
  lemma OncologistShowsEmmaOnly()
    ensures Specialties[0] == "Oncologist"
    ensures FilteredPersonas(Personas, Criteria(Some(Specialties[0]), None, "")) == [EmmaRodriguez]
  {
    var c := Criteria(Some(Specialties[0]), None, "");
    var keep := ByAll(c);
    FilteredIsOneFilter(Personas, c);
    assert ToLowerCase(c.searchTerm) == "";
    IncludesEmpty(ToLowerCase(EmmaRodriguez.name));
    assert !keep(SarahChen) && !keep(MichaelTorres) && keep(EmmaRodriguez);
    assert Personas[1..] == [MichaelTorres, EmmaRodriguez];
    assert Personas[1..][1..] == [EmmaRodriguez];
    assert Filter([EmmaRodriguez], keep) == [EmmaRodriguez];
    assert Filter(Personas[1..], keep) == Filter([EmmaRodriguez], keep);
  }

  /** The trait menu's "Evidence-driven" and "Guidelines-focused" match no
      persona: the filter wants a whole trait, and no catalog trait has
      their length. */
  lemma MenuTraitsWithNoPersona(c: Criteria)
    requires c.selectedTrait == Some(PersonaTraits[0]) || c.selectedTrait == Some(PersonaTraits[2])
    ensures FilteredPersonas(Personas, c) == []
  {
    forall p | p in Personas
      ensures !MatchesTrait(c, p)
    {
      forall t | t in p.traits
        ensures ToLowerCase(t) != ToLowerCase(c.selectedTrait.value)
      {
        assert |t| != |c.selectedTrait.value|;
      }
    }
    if FilteredPersonas(Personas, c) != [] {
      var p := FilteredPersonas(Personas, c)[0];
      FilteredMembership(Personas, c, p);
    }
  }

  /** The trait filter ignores case: "brand loyalist" finds both Dr. Sarah
      Chen ("Brand Loyalist") and Dr. Michael Torres ("Brand loyalist"). */
  lemma TraitMatchIgnoresCase()
    ensures MatchesTrait(Criteria(None, Some("brand loyalist"), ""), SarahChen)
    ensures MatchesTrait(Criteria(None, Some("brand loyalist"), ""), MichaelTorres)
  {
    assert ToLowerCase("Brand Loyalist") == "brand loyalist";
    assert ToLowerCase("Brand loyalist") == "brand loyalist";
  }

  /** Search ignores case: "DERM" finds Dr. Michael Torres through his
      role. */
  lemma SearchIgnoresCase()
    ensures MichaelTorres in FilteredPersonas(Personas, Criteria(None, None, "DERM"))
  {
    var c := Criteria(None, None, "DERM");
    var role := ToLowerCase(MichaelTorres.role);
    assert ToLowerCase(c.searchTerm) == "derm";
    assert role[0] == 'd' && role[1] == 'e' && role[2] == 'r' && role[3] == 'm';
    assert role[0..4] == "derm";
    IncludesAt(role, "derm", 0);
    assert MatchesSearch(c, MichaelTorres);
    FilteredMembership(Personas, c, MichaelTorres);
  }
}
