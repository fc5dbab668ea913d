/** The two custom sidebar filters of the Project listing
    (project_management/filters.py): `BudgetRangeFilter`, which keeps the
    projects whose budget amount lies in one of five bands, and
    `CurrencyTypeFilter`, which keeps the projects of one currency. A filter
    whose selected code it does not know returns no queryset (Python `None`),
    and the listing is then shown unfiltered. */
module Filters {
  import opened Records

  /** Budget amounts are held in cents; the bands are stated in whole units. */
  const Cents: int := 100

  /** A half-open band of amounts in cents: `lo <= x`, and `x < hi` when there is an upper end. */
  datatype Band = Band(lo: int, hi: Option<int>)

  predicate InBand(cents: int, b: Band) {
    b.lo <= cents && (b.hi.Some? ==> cents < b.hi.value)
  }

  /** The field lookups the two filters pass to `queryset.filter`:
      `project_budget__gte` / `project_budget__lt`, or `project_budget_currency`. */
  datatype Lookup = BudgetIn(band: Band) | CurrencyIs(currency: string)

  predicate Matches(p: Project, lookup: Lookup) {
    match lookup
    case BudgetIn(b) => InBand(p.budgetCents, b)
    case CurrencyIs(c) => p.currency == c
  }

  /** The order-preserving selection `queryset.filter(...)` performs. */
  function Keep(queryset: seq<Project>, lookup: Lookup): (r: seq<Project>)
    ensures |r| <= |queryset|
    ensures forall p :: p in r <==> p in queryset && Matches(p, lookup)
  {
    if queryset == [] then []
    else (if Matches(queryset[0], lookup) then [queryset[0]] else []) + Keep(queryset[1..], lookup)
  }

  /** Selecting from a concatenation selects from each part in turn, so the
      result keeps the queryset's order. */
  lemma {:induction false} KeepConcat(a: seq<Project>, b: seq<Project>, lookup: Lookup)
    ensures Keep(a + b, lookup) == Keep(a, lookup) + Keep(b, lookup)
  {
    if a == [] {
      assert a + b == b;
    } else {
      assert (a + b)[0] == a[0];
      assert (a + b)[1..] == a[1..] + b;
      KeepConcat(a[1..], b, lookup);
    }
  }

  /** The codes and labels `BudgetRangeFilter.lookups` offers. */
  function BudgetLookups(): (r: seq<(string, string)>)
    ensures |r| == 5
    ensures forall i :: 0 <= i < |r| ==> BudgetBand(Some(r[i].0)).Some?
    ensures forall i, j :: 0 <= i < j < |r| ==> r[i].0 != r[j].0
  {
    [("0", "Under 1,000"),
     ("1", "1,000 - 5,000"),
     ("2", "5,000 - 10,000"),
     ("3", "10,000 - 15,000"),
     ("4", "Over 15,000")]
  }

  /** The codes and labels `CurrencyTypeFilter.lookups` offers. */
  function CurrencyLookups(): (r: seq<(string, string)>)
    ensures |r| == 3
    ensures forall i :: 0 <= i < |r| ==> r[i].0 == "INR" || r[i].0 == "USD" || r[i].0 == "EUR"
    ensures forall i, j :: 0 <= i < j < |r| ==> r[i].0 != r[j].0
  {
    [("EUR", "Euro (\U{20AC})"),
     ("INR", "Indian Rupee (\U{20B9})"),
     ("USD", "US Dollar ($)")]
  }

  function Codes(lookups: seq<(string, string)>): set<string> {
    set i | 0 <= i < |lookups| :: lookups[i].0
  }

  /** The band `BudgetRangeFilter.queryset` selects for a code, if it has a branch for it. */
  function BudgetBand(code: Option<string>): (b: Option<Band>)
    ensures b.None? <==> code !in {Some("0"), Some("1"), Some("2"), Some("3"), Some("4")}
    ensures b.Some? ==> 0 <= b.value.lo && (b.value.hi.Some? ==> b.value.lo < b.value.hi.value)
    ensures b.Some? && b.value.hi.None? <==> code == Some("4")
  {
    if code == Some("0") then Some(Band(0, Some(1000 * Cents)))
    else if code == Some("1") then Some(Band(1000 * Cents, Some(5000 * Cents)))
    else if code == Some("2") then Some(Band(5000 * Cents, Some(10000 * Cents)))
    else if code == Some("3") then Some(Band(10000 * Cents, Some(15000 * Cents)))
    else if code == Some("4") then Some(Band(15000 * Cents, None))
    else None
  }

  function BudgetQueryset(code: Option<string>, queryset: seq<Project>): (r: Option<seq<Project>>)
    ensures r.None? <==> code !in {Some("0"), Some("1"), Some("2"), Some("3"), Some("4")}
    ensures r.Some? ==> forall p :: p in r.value <==> p in queryset && InBand(p.budgetCents, BudgetBand(code).value)
  {
    match BudgetBand(code)
    case None => None
    case Some(b) => Some(Keep(queryset, BudgetIn(b)))
  }

  function CurrencyQueryset(code: Option<string>, queryset: seq<Project>): (r: Option<seq<Project>>)
    ensures r.None? <==> code !in {Some("INR"), Some("USD"), Some("EUR")}
    ensures r.Some? ==> forall p :: p in r.value <==> p in queryset && Some(p.currency) == code
  {
    if code == Some("INR") then Some(Keep(queryset, CurrencyIs("INR")))
    else if code == Some("USD") then Some(Keep(queryset, CurrencyIs("USD")))
    else if code == Some("EUR") then Some(Keep(queryset, CurrencyIs("EUR")))
    else None
  }

  /** The band code a budget falls into; no code for a negative budget. */
  function BandOf(cents: int): (code: Option<string>)
    ensures BudgetBand(code).Some? <==> cents >= 0
    ensures BudgetBand(code).Some? ==> InBand(cents, BudgetBand(code).value)
  {
    if cents < 0 then None
    else if cents < 1000 * Cents then Some("0")
    else if cents < 5000 * Cents then Some("1")
    else if cents < 10000 * Cents then Some("2")
    else if cents < 15000 * Cents then Some("3")
    else Some("4")
  }

  /** The bands are pairwise disjoint: a budget lies only in the band of its own code. */
  lemma BandUnique(code: Option<string>, cents: int)
    requires BudgetBand(code).Some? && InBand(cents, BudgetBand(code).value)
    ensures code == BandOf(cents)
  {
  }

  /** A negative budget lies in no band. */
  lemma NegativeInNoBand(code: Option<string>, cents: int)
    requires cents < 0 && BudgetBand(code).Some?
    ensures !InBand(cents, BudgetBand(code).value)
  {
  }

  /** Over one queryset, every project with a non-negative budget is kept by
      exactly one budget code, and a project with a negative budget by none. */
  lemma BudgetFiltersPartition(queryset: seq<Project>, p: Project, code: Option<string>)
    requires p in queryset
    ensures BudgetQueryset(BandOf(p.budgetCents), queryset).Some? <==> p.budgetCents >= 0
    ensures p.budgetCents >= 0 ==> p in BudgetQueryset(BandOf(p.budgetCents), queryset).value
    ensures BudgetQueryset(code, queryset).Some? && p in BudgetQueryset(code, queryset).value
            ==> code == BandOf(p.budgetCents)
  {
    if BudgetQueryset(code, queryset).Some? && p in BudgetQueryset(code, queryset).value {
      BandUnique(code, p.budgetCents);
    }
  }

  /** Every code the budget filter offers has a `queryset` branch, and every branch is offered. */
  lemma BudgetLookupsMatchBranches(code: string)
    ensures code in Codes(BudgetLookups()) <==> BudgetBand(Some(code)).Some?
  {
    var l := BudgetLookups();
    if BudgetBand(Some(code)).Some? {
      assert code == l[0].0 || code == l[1].0 || code == l[2].0 || code == l[3].0 || code == l[4].0;
    }
  }

  /** Every code the currency filter offers has a `queryset` branch, and every branch is offered. */
  lemma CurrencyLookupsMatchBranches(code: string)
    ensures code in Codes(CurrencyLookups()) <==> CurrencyQueryset(Some(code), []).Some?
  {
    var l := CurrencyLookups();
    if CurrencyQueryset(Some(code), []).Some? {
      assert code == l[0].0 || code == l[1].0 || code == l[2].0;
    }
  }

  /** Whenever a filter applies, what it returns is drawn from its input. */
  lemma FiltersSelectFromInput(code: Option<string>, queryset: seq<Project>)
    ensures BudgetQueryset(code, queryset).Some? ==>
              multiset(BudgetQueryset(code, queryset).value) <= multiset(queryset)
    ensures CurrencyQueryset(code, queryset).Some? ==>
              multiset(CurrencyQueryset(code, queryset).value) <= multiset(queryset)
  {
    if BudgetBand(code).Some? {
      KeepSubMultiset(queryset, BudgetIn(BudgetBand(code).value));
    }
    if CurrencyQueryset(code, queryset).Some? {
      KeepSubMultiset(queryset, CurrencyIs(code.value));
    }
  }

  lemma {:induction false} KeepSubMultiset(queryset: seq<Project>, lookup: Lookup)
    ensures multiset(Keep(queryset, lookup)) <= multiset(queryset)
  {
    if queryset != [] {
      var head := if Matches(queryset[0], lookup) then [queryset[0]] else [];
      KeepSubMultiset(queryset[1..], lookup);
      assert Keep(queryset, lookup) == head + Keep(queryset[1..], lookup);
      assert multiset(head) <= multiset([queryset[0]]);
      assert queryset == [queryset[0]] + queryset[1..];
      assert multiset(queryset) == multiset([queryset[0]]) + multiset(queryset[1..]);
    }
  }
}
