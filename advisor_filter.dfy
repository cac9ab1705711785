/** The advisor directory's filter: the list shown is the fetched advisor
    list narrowed by office, language, specialty and a name search, in that
    order, each step skipped while its selection is the "Any …" default. */
module AdvisorFilter {
  import opened Common
  import opened JsText

  /** One advisor record of the directory. */
  datatype Advisor = Advisor(
    id: string,
    name: string,
    title: string,
    image: Option<string>,
    phone: Option<string>,
    email: Option<string>,
    office: string,
    languages: Option<seq<string>>,
    specialties: Option<seq<string>>)

  /** The filter record, `FilterOptions`. */
  datatype Filters = Filters(office: string, language: string, specialty: string, group: string, agentName: string)

  const AnyOffice: string := "Any Office"
  const AnyLanguage: string := "Any Language"
  const AnySpecialties: string := "Any Specialties"
  const AnyGroup: string := "Any"

  /** The record the page starts with and `handleClearAll` restores. */
  function Cleared(): (f: Filters)
    ensures f.office == AnyOffice && f.language == AnyLanguage && f.specialty == AnySpecialties
    ensures f.group == AnyGroup && f.agentName == ""
  {
    Filters(AnyOffice, AnyLanguage, AnySpecialties, AnyGroup, "")
  }

  /** `xs.filter(p)`. */
  function Filter<T(==,!new)>(xs: seq<T>, p: T -> bool): (r: seq<T>)
    ensures |r| <= |xs|
    ensures forall x :: x in r <==> x in xs && p(x)
    ensures IsSubsequence(r, xs)
  {
    if xs == [] then []
    else if p(xs[0]) then [xs[0]] + Filter(xs[1..], p)
    else Filter(xs[1..], p)
  }

  /** `filter` keeps every passing element as many times as it occurs, and
      no other. */
  lemma {:induction false} FilterCounts<T(!new)>(xs: seq<T>, p: T -> bool)
    ensures forall x :: multiset(Filter(xs, p))[x] == if p(x) then multiset(xs)[x] else 0
    decreases |xs|
  {
    if xs != [] {
      assert xs == [xs[0]] + xs[1..];
      FilterCounts(xs[1..], p);
    }
  }

  /** `a` is `b` with some elements left out, order kept. */
  predicate IsSubsequence<T(==)>(a: seq<T>, b: seq<T>)
    decreases |b|
  {
    if a == [] then true
    else if b == [] then false
    else if a[0] == b[0] then IsSubsequence(a[1..], b[1..])
    else IsSubsequence(a, b[1..])
  }

  /** `list?.includes(x)`: an absent list includes nothing. */
  predicate Lists(list: Option<seq<string>>, x: string)
  {
    list.Some? && x in list.value
  }

  /** The name search: a lower-cased substring of the lower-cased name. The
      search text is lower-cased but not trimmed. */
  predicate NameHas(a: Advisor, search: string)
  {
    Includes(Lower(a.name), Lower(search))
  }

  /** The predicates of the four `.filter` steps. */
  function InOffice(office: string): Advisor -> bool
  {
    (a: Advisor) => a.office == office
  }

  function Speaks(language: string): Advisor -> bool
  {
    (a: Advisor) => Lists(a.languages, language)
  }

  function Offers(specialty: string): Advisor -> bool
  {
    (a: Advisor) => Lists(a.specialties, specialty)
  }

  function NameContains(search: string): Advisor -> bool
  {
    (a: Advisor) => NameHas(a, search)
  }

  /** One step of the effect: `filter(p)` when its guard holds, otherwise
      the list as it is. */
  function Stage(guard: bool, xs: seq<Advisor>, p: Advisor -> bool): seq<Advisor>
  {
    if guard then Filter(xs, p) else xs
  }

  /** The filter effect: successive `.filter` steps over a copy of the list.
      `group` takes no part. */
  function FilterAdvisors(f: Filters, advisors: seq<Advisor>): seq<Advisor>
  {
    var byOffice := Stage(f.office != AnyOffice, advisors, InOffice(f.office));
    var byLanguage := Stage(f.language != AnyLanguage, byOffice, Speaks(f.language));
    var bySpecialty := Stage(f.specialty != AnySpecialties, byLanguage, Offers(f.specialty));
    Stage(Trim(f.agentName) != [], bySpecialty, NameContains(f.agentName))
  }

  /** The effect's body as written: a local copy of the list, reassigned
      by each `.filter` step whose guard holds. It computes the advisors
      that match every selection, in their order. */
  method FilterInSteps(f: Filters, advisors: seq<Advisor>) returns (filtered: seq<Advisor>)
    ensures filtered == FilterAdvisors(f, advisors)
    ensures filtered == Shown(f, advisors)
  {
    filtered := advisors;
    if f.office != AnyOffice {
      filtered := Filter(filtered, InOffice(f.office));
    }
    ghost var byOffice := filtered;
    if f.language != AnyLanguage {
      filtered := Filter(filtered, Speaks(f.language));
    }
    ghost var byLanguage := filtered;
    if f.specialty != AnySpecialties {
      filtered := Filter(filtered, Offers(f.specialty));
    }
    ghost var bySpecialty := filtered;
    if Trim(f.agentName) != [] {
      filtered := Filter(filtered, NameContains(f.agentName));
    }
    assert byOffice == Stage(f.office != AnyOffice, advisors, InOffice(f.office));
    assert byLanguage == Stage(f.language != AnyLanguage, byOffice, Speaks(f.language));
    assert bySpecialty == Stage(f.specialty != AnySpecialties, byLanguage, Offers(f.specialty));
    FilterAdvisorsIsShown(f, advisors);
  }

  /** The reference definition: an advisor is shown when it passes every
      selection that is not the default. */
  predicate Matches(f: Filters, a: Advisor)
  {
    (f.office == AnyOffice || a.office == f.office) &&
    (f.language == AnyLanguage || Lists(a.languages, f.language)) &&
    (f.specialty == AnySpecialties || Lists(a.specialties, f.specialty)) &&
    (Trim(f.agentName) == [] || NameHas(a, f.agentName))
  }

  /** The advisors of `xs` that match, in their order. */
  function Shown(f: Filters, xs: seq<Advisor>): (r: seq<Advisor>)
    ensures forall a :: a in r <==> a in xs && Matches(f, a)
    ensures IsSubsequence(r, xs)
  {
    if xs == [] then []
    else if Matches(f, xs[0]) then [xs[0]] + Shown(f, xs[1..])
    else Shown(f, xs[1..])
  }

  /** The reference result holds every matching advisor as many times as the
      list does, and no other. */
  lemma {:induction false} ShownCounts(f: Filters, xs: seq<Advisor>)
    ensures forall a :: multiset(Shown(f, xs))[a] == if Matches(f, a) then multiset(xs)[a] else 0
    decreases |xs|
  {
    if xs != [] {
      assert xs == [xs[0]] + xs[1..];
      ShownCounts(f, xs[1..]);
    }
  }

  lemma {:induction false} FilterConcat<T(!new)>(a: seq<T>, b: seq<T>, p: T -> bool)
    ensures Filter(a + b, p) == Filter(a, p) + Filter(b, p)
    decreases |a|
  {
    if a == [] {
      assert a + b == b;
    } else {
      assert (a + b)[0] == a[0] && (a + b)[1..] == a[1..] + b;
      FilterConcat(a[1..], b, p);
      if p(a[0]) {
        assert [a[0]] + Filter(a[1..], p) + Filter(b, p) == [a[0]] + (Filter(a[1..], p) + Filter(b, p));
      }
    }
  }

  lemma FilterSingle<T(!new)>(x: T, p: T -> bool)
    ensures Filter([x], p) == if p(x) then [x] else []
  {
    assert [x][1..] == [];
  }

  lemma StageConcat(guard: bool, a: seq<Advisor>, b: seq<Advisor>, p: Advisor -> bool)
    ensures Stage(guard, a + b, p) == Stage(guard, a, p) + Stage(guard, b, p)
  {
    FilterConcat(a, b, p);
  }

  /** The effect's pipeline splits over concatenation. */
  lemma FilterAdvisorsConcat(f: Filters, a: seq<Advisor>, b: seq<Advisor>)
    ensures FilterAdvisors(f, a + b) == FilterAdvisors(f, a) + FilterAdvisors(f, b)
  {
    var o1, o2 := Stage(f.office != AnyOffice, a, InOffice(f.office)), Stage(f.office != AnyOffice, b, InOffice(f.office));
    StageConcat(f.office != AnyOffice, a, b, InOffice(f.office));
    var l1, l2 := Stage(f.language != AnyLanguage, o1, Speaks(f.language)), Stage(f.language != AnyLanguage, o2, Speaks(f.language));
    StageConcat(f.language != AnyLanguage, o1, o2, Speaks(f.language));
    var s1, s2 := Stage(f.specialty != AnySpecialties, l1, Offers(f.specialty)), Stage(f.specialty != AnySpecialties, l2, Offers(f.specialty));
    StageConcat(f.specialty != AnySpecialties, l1, l2, Offers(f.specialty));
    StageConcat(Trim(f.agentName) != [], s1, s2, NameContains(f.agentName));
  }

  /** On one advisor the pipeline keeps it exactly when it matches. */
  lemma FilterAdvisorsSingle(f: Filters, x: Advisor)
    ensures FilterAdvisors(f, [x]) == if Matches(f, x) then [x] else []
  {
    FilterSingle(x, InOffice(f.office));
    FilterSingle(x, Speaks(f.language));
    FilterSingle(x, Offers(f.specialty));
    FilterSingle(x, NameContains(f.agentName));
  }

  /** The successive `.filter` steps compute the single conjunction. */
  lemma {:induction false} FilterAdvisorsIsShown(f: Filters, xs: seq<Advisor>)
    ensures FilterAdvisors(f, xs) == Shown(f, xs)
    decreases |xs|
  {
    if xs == [] {
    } else {
      assert xs == [xs[0]] + xs[1..];
      FilterAdvisorsConcat(f, [xs[0]], xs[1..]);
      FilterAdvisorsSingle(f, xs[0]);
      FilterAdvisorsIsShown(f, xs[1..]);
    }
  }

  /** The filtered list is the advisor list with some advisors left out, in
      the original order, and holds exactly the advisors that match, each
      as many times as the list holds it. */
  lemma FilterAdvisorsSpec(f: Filters, xs: seq<Advisor>)
    ensures IsSubsequence(FilterAdvisors(f, xs), xs)
    ensures forall a :: a in FilterAdvisors(f, xs) <==> a in xs && Matches(f, a)
    ensures forall a :: multiset(FilterAdvisors(f, xs))[a] == if Matches(f, a) then multiset(xs)[a] else 0
  {
    FilterAdvisorsIsShown(f, xs);
    ShownCounts(f, xs);
  }

  lemma {:induction false} ShownAll(f: Filters, xs: seq<Advisor>)
    requires forall a :: a in xs ==> Matches(f, a)
    ensures Shown(f, xs) == xs
    decreases |xs|
  {
    if xs != [] {
      assert xs[0] in xs;
      assert forall a :: a in xs[1..] ==> a in xs;
      ShownAll(f, xs[1..]);
    }
  }

  lemma {:induction false} ShownSame(f: Filters, g: Filters, xs: seq<Advisor>)
    requires forall a :: Matches(f, a) == Matches(g, a)
    ensures Shown(f, xs) == Shown(g, xs)
    decreases |xs|
  {
    if xs != [] {
      ShownSame(f, g, xs[1..]);
    }
  }

  /** With every selection at its default and a blank name search, the
      whole list is shown, whatever the group. */
  lemma DefaultsShowAll(f: Filters, xs: seq<Advisor>)
    requires f.office == AnyOffice && f.language == AnyLanguage && f.specialty == AnySpecialties
    requires Trim(f.agentName) == []
    ensures FilterAdvisors(f, xs) == xs
  {
    FilterAdvisorsIsShown(f, xs);
    ShownAll(f, xs);
  }

  /** The cleared record shows every advisor. */
  lemma ClearedShowsAll(xs: seq<Advisor>)
    ensures FilterAdvisors(Cleared(), xs) == xs
  {
    TrimEmptyIff("");
    DefaultsShowAll(Cleared(), xs);
  }

  /** An office selection keeps exactly the advisors of that office, when
      it is the only selection. */
  lemma OfficeExact(f: Filters, xs: seq<Advisor>, a: Advisor)
    requires f.office != AnyOffice
    requires f.language == AnyLanguage && f.specialty == AnySpecialties && Trim(f.agentName) == []
    ensures a in FilterAdvisors(f, xs) <==> a in xs && a.office == f.office
  {
    FilterAdvisorsSpec(f, xs);
  }

  /** A language or specialty selection keeps only advisors whose list names
      it; an advisor without the list is never shown. */
  lemma ListSelectionsExclude(f: Filters, xs: seq<Advisor>, a: Advisor)
    ensures a in FilterAdvisors(f, xs) && f.language != AnyLanguage ==>
              a.languages.Some? && f.language in a.languages.value
    ensures a in FilterAdvisors(f, xs) && f.specialty != AnySpecialties ==>
              a.specialties.Some? && f.specialty in a.specialties.value
    ensures a.languages.None? && f.language != AnyLanguage ==> a !in FilterAdvisors(f, xs)
    ensures a.specialties.None? && f.specialty != AnySpecialties ==> a !in FilterAdvisors(f, xs)
  {
    FilterAdvisorsSpec(f, xs);
  }

  /** A name search that trims to nothing is skipped: the list is the one
      the empty search gives. */
  lemma BlankNameSkipped(f: Filters, xs: seq<Advisor>)
    requires Trim(f.agentName) == []
    ensures FilterAdvisors(f, xs) == FilterAdvisors(f.(agentName := ""), xs)
  {
    var g := f.(agentName := "");
    TrimEmptyIff("");
    forall a
      ensures Matches(f, a) == Matches(g, a)
    {
    }
    FilterAdvisorsIsShown(f, xs);
    FilterAdvisorsIsShown(g, xs);
    ShownSame(f, g, xs);
  }

  /** Every advisor a non-blank search shows has the search text, ignoring
      case, inside its name. */
  lemma NameSearchShows(f: Filters, xs: seq<Advisor>, a: Advisor)
    requires Trim(f.agentName) != []
    ensures a in FilterAdvisors(f, xs) ==> Includes(Lower(a.name), Lower(f.agentName))
  {
    FilterAdvisorsSpec(f, xs);
  }

  /** Two searches that differ only in letter case show the same list. */
  lemma NameCaseInsensitive(f: Filters, s: string, t: string, xs: seq<Advisor>)
    requires Lower(s) == Lower(t)
    ensures FilterAdvisors(f.(agentName := s), xs) == FilterAdvisors(f.(agentName := t), xs)
  {
    LowerKeepsBlank(s);
    LowerKeepsBlank(t);
    FilterAdvisorsIsShown(f.(agentName := s), xs);
    FilterAdvisorsIsShown(f.(agentName := t), xs);
    ShownSame(f.(agentName := s), f.(agentName := t), xs);
  }

  /** The group selection never changes the list. */
  lemma GroupIgnored(f: Filters, g: string, xs: seq<Advisor>)
    ensures FilterAdvisors(f.(group := g), xs) == FilterAdvisors(f, xs)
  {
  }

  lemma {:induction false} ShownIdempotent(f: Filters, xs: seq<Advisor>)
    ensures Shown(f, Shown(f, xs)) == Shown(f, xs)
    decreases |xs|
  {
    if xs != [] {
      ShownIdempotent(f, xs[1..]);
      if Matches(f, xs[0]) {
        assert ([xs[0]] + Shown(f, xs[1..]))[1..] == Shown(f, xs[1..]);
      }
    }
  }

  /** Filtering the filtered list again changes nothing. */
  lemma FilterAdvisorsIdempotent(f: Filters, xs: seq<Advisor>)
    ensures FilterAdvisors(f, FilterAdvisors(f, xs)) == FilterAdvisors(f, xs)
  {
    FilterAdvisorsIsShown(f, xs);
    FilterAdvisorsIsShown(f, Shown(f, xs));
    ShownIdempotent(f, xs);
  }
}
