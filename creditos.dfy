/**
 * The credits page of src/pages/Creditos.tsx: the two totals folded over the
 * generation history, the built-in history it shows, and the niche, location
 * and field-tag texts of each history card.
 */
module Creditos {
  import opened Wrappers
  import opened Text

  /** The filters a past generation used; `cidade` and `estado` may be missing. */
  datatype UsageFilters = UsageFilters(
    nicho: string,
    cidade: Option<string>,
    estado: Option<string>,
    pais: string,
    idadeMin: int,
    idadeMax: int,
    includePhone: bool,
    includeEmail: bool,
    includeWebsite: bool)

  datatype GenerationHistory = GenerationHistory(
    id: string,
    date: string,
    filters: UsageFilters,
    totalLeads: int,
    creditsUsed: int)

  /**
   * `reduce((total, item) => total + amount(item), 0)`: a left fold, so the
   * last entry is added last.
   */
  function Total(h: seq<GenerationHistory>, amount: GenerationHistory -> int): (t: int)
    ensures h == [] ==> t == 0
    ensures |h| == 1 ==> t == amount(h[0])
  {
    if h == [] then 0 else Total(h[..|h| - 1], amount) + amount(h[|h| - 1])
  }

  function CreditsOf(e: GenerationHistory): int { e.creditsUsed }

  function LeadsOf(e: GenerationHistory): int { e.totalLeads }

  /** `getTotalCreditsUsed`. */
  function TotalCreditsUsed(h: seq<GenerationHistory>): (t: int)
    ensures h == [] ==> t == 0
  {
    Total(h, CreditsOf)
  }

  /** `getTotalLeadsGenerated`. */
  function TotalLeadsGenerated(h: seq<GenerationHistory>): (t: int)
    ensures h == [] ==> t == 0
  {
    Total(h, LeadsOf)
  }

  /** The total of two histories placed one after the other is the sum of their totals. */
  lemma {:induction false} TotalAppend(a: seq<GenerationHistory>, b: seq<GenerationHistory>,
                                       amount: GenerationHistory -> int)
    ensures Total(a + b, amount) == Total(a, amount) + Total(b, amount)
    decreases |b|
  {
    if b == [] {
      assert a + b == a;
    } else {
      var init := b[..|b| - 1];
      assert (a + b)[..|a + b| - 1] == a + init;
      assert (a + b)[|a + b| - 1] == b[|b| - 1];
      TotalAppend(a, init, amount);
    }
  }

  /** The fold taken from the front, as a reference definition of the same sum. */
  function SumFromFront(h: seq<GenerationHistory>, amount: GenerationHistory -> int): int
  {
    if h == [] then 0 else amount(h[0]) + SumFromFront(h[1..], amount)
  }

  /** The order `reduce` visits the entries in does not matter. */
  lemma {:induction false} TotalIsSumFromFront(h: seq<GenerationHistory>, amount: GenerationHistory -> int)
    ensures Total(h, amount) == SumFromFront(h, amount)
    decreases |h|
  {
    if h != [] {
      TotalIsSumFromFront(h[1..], amount);
      assert h == [h[0]] + h[1..];
      TotalAppend([h[0]], h[1..], amount);
    }
  }

  /** Totals of two amounts that agree entry by entry agree. */
  lemma {:induction false} TotalPointwise(h: seq<GenerationHistory>, f: GenerationHistory -> int,
                                          g: GenerationHistory -> int)
    requires forall i :: 0 <= i < |h| ==> f(h[i]) == g(h[i])
    ensures Total(h, f) == Total(h, g)
    decreases |h|
  {
    if h != [] {
      TotalPointwise(h[..|h| - 1], f, g);
    }
  }

  /** When every generation charged one credit per lead, the two totals coincide. */
  lemma CreditsMatchLeads(h: seq<GenerationHistory>)
    requires forall i :: 0 <= i < |h| ==> h[i].creditsUsed == h[i].totalLeads
    ensures TotalCreditsUsed(h) == TotalLeadsGenerated(h)
  {
    TotalPointwise(h, CreditsOf, LeadsOf);
  }

  /** A total of non-negative amounts is at least each of them. */
  lemma {:induction false} TotalBoundsEntries(h: seq<GenerationHistory>, amount: GenerationHistory -> int, k: nat)
    requires forall i :: 0 <= i < |h| ==> amount(h[i]) >= 0
    requires k < |h|
    ensures Total(h, amount) >= amount(h[k])
    decreases |h|
  {
    TotalNonNegative(h[..|h| - 1], amount);
    if k < |h| - 1 {
      TotalBoundsEntries(h[..|h| - 1], amount, k);
    }
  }

  lemma {:induction false} TotalNonNegative(h: seq<GenerationHistory>, amount: GenerationHistory -> int)
    requires forall i :: 0 <= i < |h| ==> amount(h[i]) >= 0
    ensures Total(h, amount) >= 0
    decreases |h|
  {
    if h != [] {
      TotalNonNegative(h[..|h| - 1], amount);
    }
  }

  /** The history the page loads on mount. */
  function MockHistory(): (h: seq<GenerationHistory>)
    ensures |h| == 3
    ensures forall i :: 0 <= i < |h| ==> h[i].creditsUsed == h[i].totalLeads
  {
    [ GenerationHistory("1", "2024-01-15T10:30:00Z",
        UsageFilters("estetica", Some("São Paulo"), Some("SP"), "Brasil", 25, 45, true, true, false), 150, 150),
      GenerationHistory("2", "2024-01-10T14:20:00Z",
        UsageFilters("advocacia", Some("Rio de Janeiro"), Some("RJ"), "Brasil", 30, 60, true, true, true), 200, 200),
      GenerationHistory("3", "2024-01-05T09:15:00Z",
        UsageFilters("medicina", Some("Belo Horizonte"), Some("MG"), "Brasil", 28, 55, true, true, false), 100, 100) ]
  }

  /** Both cards of the page's summary show 450 for the built-in history. */
  lemma MockTotals()
    ensures TotalLeadsGenerated(MockHistory()) == 450
    ensures TotalCreditsUsed(MockHistory()) == 450
  {
    var h := MockHistory();
    assert h[..2][..1] == [h[0]];
    assert Total(h[..2], LeadsOf) == 350;
    CreditsMatchLeads(h);
  }

  /** `charAt(0).toUpperCase() + slice(1)`, for ASCII letters. */
  function NichoDisplayName(nicho: string): (r: string)
    ensures |r| == |nicho|
    ensures nicho != "" ==> r[0] == UpperChar(nicho[0]) && r[1..] == nicho[1..]
  {
    if nicho == "" then "" else [UpperChar(nicho[0])] + nicho[1..]
  }

  /** Capitalising an already capitalised name changes nothing. */
  lemma NichoDisplayNameIdempotent(nicho: string)
    ensures NichoDisplayName(NichoDisplayName(nicho)) == NichoDisplayName(nicho)
  {
  }

  /** A missing or empty optional string is falsy in the page's `&&` and `||`. */
  predicate Truthy(s: Option<string>)
  {
    s.Some? && s.value != ""
  }

  /** The region after the city: `estado || pais`. */
  function Region(f: UsageFilters): (r: string)
    ensures Truthy(f.estado) ==> r == f.estado.value
    ensures !Truthy(f.estado) ==> r == f.pais
  {
    if Truthy(f.estado) then f.estado.value else f.pais
  }

  /** The "Localização" line: the city and a comma only when there is a city, then the region. */
  function Location(f: UsageFilters): (r: string)
    ensures |r| >= |Region(f)| && r[|r| - |Region(f)|..] == Region(f)
    ensures Truthy(f.cidade) <==> |r| > |Region(f)|
    ensures Truthy(f.cidade) ==> |r| == |f.cidade.value| + 2 + |Region(f)| && r[..|f.cidade.value| + 2] == f.cidade.value + ", "
  {
    (if Truthy(f.cidade) then f.cidade.value + ", " else "") + Region(f)
  }

  /** The built-in cards read "São Paulo, SP", "Rio de Janeiro, RJ" and "Belo Horizonte, MG". */
  lemma MockLocations()
    ensures Location(MockHistory()[0].filters) == "São Paulo, SP"
    ensures Location(MockHistory()[1].filters) == "Rio de Janeiro, RJ"
    ensures Location(MockHistory()[2].filters) == "Belo Horizonte, MG"
  {
  }

  const AllTags: seq<string> := ["Email", "Telefone", "Website"]

  /** The position of a tag in `AllTags`. */
  function TagRank(tag: string): nat
  {
    if tag == "Email" then 0 else if tag == "Telefone" then 1 else 2
  }

  /** The "Campos incluídos" tags. */
  function FieldTags(f: UsageFilters): (r: seq<string>)
    ensures "Email" in r <==> f.includeEmail
    ensures "Telefone" in r <==> f.includePhone
    ensures "Website" in r <==> f.includeWebsite
    ensures forall i :: 0 <= i < |r| ==> r[i] in AllTags
    ensures forall i, j :: 0 <= i < j < |r| ==> TagRank(r[i]) < TagRank(r[j])
  {
    (if f.includeEmail then ["Email"] else [])
      + (if f.includePhone then ["Telefone"] else [])
      + (if f.includeWebsite then ["Website"] else [])
  }
}
