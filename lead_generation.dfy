/**
 * The lead-generation screen of src/pages/LeadGeneration.tsx: starting a run,
 * the interval that adds one batch of simulated leads every two seconds, the
 * stop button, the search history and the CSV exports.
 *
 * Each `setInterval` closure is an `Interval` object holding the filters it
 * captured and its own batch counter; the screen's React state lives in a
 * `GenerationPage`. The clock, `new Date().toISOString()` and `Math.random()`
 * reach the model through a `TickInput`.
 */
module LeadGeneration {
  import opened Wrappers
  import opened Text
  import opened LeadTypes
  import opened Browser

  const BatchSize := 30
  const SecondsPerBatch := 2

  /**
   * What one firing of the interval reads from outside: `Date.now()`, the ISO
   * text of `new Date()`, and the random draws, two per lead (the i-th lead
   * uses draws 2i and 2i+1).
   */
  datatype TickInput = TickInput(now: nat, createdAt: string, draws: nat -> Draw)

  /** `Math.ceil(q / 30)`. */
  function TotalBatches(q: nat): (n: nat)
    ensures n * BatchSize >= q
    ensures n > 0 ==> (n - 1) * BatchSize < q
  {
    (q + BatchSize - 1) / BatchSize
  }

  /**
   * The batch at which the interval clears itself: the first one with
   * `currentBatch >= totalBatches`, which is batch 1 when there is nothing
   * to generate.
   */
  function LastBatch(q: nat): (n: nat)
    ensures n >= 1 && n >= TotalBatches(q)
    ensures q > 0 ==> n == TotalBatches(q)
  {
    if TotalBatches(q) == 0 then 1 else TotalBatches(q)
  }

  /** `generated` after batch `batch`: `Math.min(batch * 30, q)`. */
  function Generated(q: nat, batch: nat): (g: nat)
    ensures g <= q && g <= batch * BatchSize
    ensures g == q || g == batch * BatchSize
  {
    if batch * BatchSize < q then batch * BatchSize else q
  }

  /**
   * The number of leads batch `batch` creates: `Math.min(30, q - (batch - 1) * 30)`,
   * where a negative length gives no leads.
   */
  function BatchCount(q: nat, batch: nat): (n: nat)
    requires batch >= 1
    ensures n <= BatchSize
    ensures (batch - 1) * BatchSize <= q ==> Generated(q, batch - 1) + n == Generated(q, batch)
    ensures (batch - 1) * BatchSize >= q ==> n == 0
  {
    var rest := q - (batch - 1) * BatchSize;
    if rest <= 0 then 0 else if rest < BatchSize then rest else BatchSize
  }

  /** `estimatedTimeRemaining` after batch `batch`: two seconds per batch still to come. */
  function Eta(q: nat, batch: nat): (s: nat)
    ensures s == 0 <==> batch >= TotalBatches(q)
    ensures batch < TotalBatches(q) ==> s == (TotalBatches(q) - batch) * SecondsPerBatch
  {
    if batch >= TotalBatches(q) then 0 else (TotalBatches(q) - batch) * SecondsPerBatch
  }

  /** `Math.floor(r * 9000) + 1000`: a four-digit number. */
  function PhoneBlock(r: Draw): (n: nat)
    ensures 1000 <= n <= 9999
  {
    (r * 9000.0).Floor + 1000
  }

  function LeadName(k: nat): string { "Lead " + NatToString(k) }

  function LeadEmail(k: nat): string { "lead" + NatToString(k) + "@example.com" }

  /** Lead `i` of batch `batch`; its global number is `(batch - 1) * 30 + i + 1`. */
  function MakeLead(f: LeadFilters, batch: nat, i: nat, input: TickInput): (l: Lead)
    requires batch >= 1
    ensures l.name == LeadName((batch - 1) * BatchSize + i + 1)
    ensures l.email == LeadEmail((batch - 1) * BatchSize + i + 1)
    ensures l.city == f.city && l.country == f.country && l.source == "Generated"
    ensures l.createdAt == input.createdAt
  {
    var k := (batch - 1) * BatchSize + i + 1;
    Lead(NatToString(input.now) + "-" + NatToString(batch) + "-" + NatToString(i),
         LeadName(k),
         LeadEmail(k),
         "+55 11 9" + NatToString(PhoneBlock(input.draws(2 * i))) + "-" + NatToString(PhoneBlock(input.draws(2 * i + 1))),
         f.city,
         f.country,
         "Generated",
         input.createdAt)
  }

  /** The leads of one batch, in order. */
  function NewLeads(f: LeadFilters, batch: nat, input: TickInput): (leads: seq<Lead>)
    requires batch >= 1
    ensures |leads| == BatchCount(f.quantity, batch)
    ensures forall i :: 0 <= i < |leads| ==> leads[i] == MakeLead(f, batch, i, input)
  {
    seq(BatchCount(f.quantity, batch), i requires 0 <= i => MakeLead(f, batch, i, input))
  }

  datatype View = FiltersView | ProgressView | HistoryView

  /** The screen's React state. */
  datatype Page = Page(progress: LeadGenerationProgress, history: seq<SearchHistory>, loading: bool, view: View)

  function Initial(): (pg: Page)
    ensures pg.progress.status == Idle && pg.progress.leads == [] && pg.history == []
    ensures !pg.loading && pg.view == FiltersView
  {
    Page(LeadGenerationProgress(0, 0, 0, 0, Idle, []), [], false, FiltersView)
  }

  /** The two searches the screen shows as history; the creation times are the ISO texts of one and two days ago. */
  function MockHistory(oneDayAgo: string, twoDaysAgo: string): (h: seq<SearchHistory>)
    ensures |h| == 2 && h[0].id == "1" && h[1].id == "2"
    ensures h[0].totalLeads == 487 && h[1].totalLeads == 198
    ensures forall i :: 0 <= i < |h| ==> h[i].status == SearchCompleted && h[i].downloadUrl.Some?
  {
    [SearchHistory("1",
       LeadFilters("Tecnologia", "São Paulo", "Brasil", 500, None, Some(["email", "phone"])),
       487, oneDayAgo, SearchCompleted, Some("/downloads/search-1.csv")),
     SearchHistory("2",
       LeadFilters("Marketing Digital", "Rio de Janeiro", "Brasil", 200, None, Some(["email", "phone", "website"])),
       198, twoDaysAgo, SearchCompleted, Some("/downloads/search-2.csv"))]
  }

  /** `loadHistory`, run on mount and whenever the token changes: the history is replaced. */
  function HistoryLoaded(pg: Page, oneDayAgo: string, twoDaysAgo: string): (r: Page)
    ensures r.history == MockHistory(oneDayAgo, twoDaysAgo)
    ensures r.progress == pg.progress && r.loading == pg.loading && r.view == pg.view
  {
    pg.(history := MockHistory(oneDayAgo, twoDaysAgo))
  }

  /** `handleGenerateLeads`: a fresh progress record for `f.quantity` leads and the progress view. */
  function Started(pg: Page, f: LeadFilters): (r: Page)
    ensures r.progress.total == f.quantity && r.progress.generated == 0 && r.progress.currentBatch == 0
    ensures r.progress.estimatedTimeRemaining == TotalBatches(f.quantity) * SecondsPerBatch
    ensures r.progress.status == Generating && r.progress.leads == []
    ensures r.loading && r.view == ProgressView && r.history == pg.history
  {
    Page(LeadGenerationProgress(f.quantity, 0, 0, TotalBatches(f.quantity) * SecondsPerBatch, Generating, []),
         pg.history, true, ProgressView)
  }

  /** Whether batch `batch` is the one that clears the interval. */
  predicate Finishes(q: nat, batch: nat) { batch >= TotalBatches(q) }

  /** The history entry a finished run adds. */
  function CompletedSearch(f: LeadFilters, generated: nat, input: TickInput): (e: SearchHistory)
    ensures e.filters == f && e.totalLeads == generated && e.status == SearchCompleted
    ensures e.id == NatToString(input.now) && e.createdAt == input.createdAt
    ensures e.downloadUrl == Some("/downloads/search-" + NatToString(input.now) + ".csv")
  {
    SearchHistory(NatToString(input.now), f, generated, input.createdAt, SearchCompleted,
                  Some("/downloads/search-" + NatToString(input.now) + ".csv"))
  }

  /**
   * One firing of an interval that captured `f`, whose counter has just
   * become `batch`. It updates whatever progress record is current; `total`
   * and `status` are kept unless this batch finishes the run.
   */
  function Fired(pg: Page, f: LeadFilters, batch: nat, input: TickInput): (r: Page)
    requires batch >= 1
    ensures r.progress.total == pg.progress.total && r.view == pg.view
    ensures r.progress.currentBatch == batch
    ensures r.progress.generated == Generated(f.quantity, batch)
    ensures r.progress.estimatedTimeRemaining == Eta(f.quantity, batch)
    ensures r.progress.leads == pg.progress.leads + NewLeads(f, batch, input)
    ensures Finishes(f.quantity, batch) ==>
      r.progress.status == Completed && !r.loading &&
      r.history == [CompletedSearch(f, Generated(f.quantity, batch), input)] + pg.history
    ensures !Finishes(f.quantity, batch) ==>
      r.progress.status == pg.progress.status && r.loading == pg.loading && r.history == pg.history
  {
    var q := f.quantity;
    var p := pg.progress.(generated := Generated(q, batch), currentBatch := batch,
                          estimatedTimeRemaining := Eta(q, batch),
                          leads := pg.progress.leads + NewLeads(f, batch, input));
    if Finishes(q, batch) then
      Page(p.(status := Completed), [CompletedSearch(f, Generated(q, batch), input)] + pg.history, false, pg.view)
    else
      pg.(progress := p)
  }

  /** `handleStopGeneration`: only the status and the loading flag change; no interval is cleared. */
  function Stopped(pg: Page): (r: Page)
    ensures r.progress == pg.progress.(status := Idle)
    ensures !r.loading && r.history == pg.history && r.view == pg.view
  {
    pg.(progress := pg.progress.(status := Idle), loading := false)
  }

  /** A run from `handleGenerateLeads` followed by one firing per input, with no other interval running. */
  function Run(pg: Page, f: LeadFilters, inputs: seq<TickInput>): Page
    decreases |inputs|
  {
    if inputs == [] then Started(pg, f)
    else Fired(Run(pg, f, inputs[..|inputs| - 1]), f, |inputs|, inputs[|inputs| - 1])
  }

  /** The leads of a run are numbered 1, 2, 3, ... and carry the run's city, country and source. */
  predicate NumberedLeads(leads: seq<Lead>, f: LeadFilters)
  {
    forall j :: 0 <= j < |leads| ==> NumberedLead(leads[j], j + 1, f)
  }

  /** A lead generated as number `k` of a run for `f`. */
  predicate NumberedLead(l: Lead, k: nat, f: LeadFilters)
  {
    l.name == LeadName(k) && l.email == LeadEmail(k) &&
    l.city == f.city && l.country == f.country && l.source == "Generated"
  }

  lemma BatchesBeforeLast(q: nat, k: nat)
    requires k < LastBatch(q)
    ensures Generated(q, k) == k * BatchSize
    ensures k * BatchSize <= q
    ensures !Finishes(q, k) || (q == 0 && k == 0)
  {
  }

  /**
   * After k firings of a run's interval (at most up to the one that clears
   * it): the counter is k, `generated` equals the number of leads, which is
   * min(30k, q), the estimate is two seconds per batch left, the leads are
   * numbered consecutively, and the run is complete exactly at the last
   * batch, where `generated` is the requested quantity and one completed
   * entry is prepended to the history.
   */
  lemma {:induction false} RunProgress(pg: Page, f: LeadFilters, inputs: seq<TickInput>)
    requires |inputs| <= LastBatch(f.quantity)
    ensures var r := Run(pg, f, inputs); var k := |inputs|; var q := f.quantity;
      && r.progress.total == q
      && r.progress.currentBatch == k
      && r.progress.generated == |r.progress.leads| == Generated(q, k)
      && r.progress.estimatedTimeRemaining == Eta(q, k)
      && NumberedLeads(r.progress.leads, f)
      && r.view == ProgressView
      && (k < LastBatch(q) ==> r.progress.status == Generating && r.loading && r.history == pg.history)
      && (k == LastBatch(q) ==>
            r.progress.status == Completed && !r.loading && r.progress.generated == q &&
            r.history == [CompletedSearch(f, q, inputs[k - 1])] + pg.history)
    decreases |inputs|
  {
    var k := |inputs|;
    var q := f.quantity;
    if k > 0 {
      var before := inputs[..k - 1];
      var prev := Run(pg, f, before);
      RunProgress(pg, f, before);
      BatchesBeforeLast(q, k - 1);
      assert Run(pg, f, inputs) == Fired(prev, f, k, inputs[k - 1]);
      NumberedAfterBatch(prev.progress.leads, f, k, inputs[k - 1]);
      if k == LastBatch(q) {
        assert Finishes(q, k);
      } else {
        assert !Finishes(q, k);
      }
    }
  }

  lemma LeadNumber(f: LeadFilters, batch: nat, i: nat, input: TickInput, number: nat)
    requires batch >= 1 && number == (batch - 1) * BatchSize + i + 1
    ensures NumberedLead(MakeLead(f, batch, i, input), number, f)
  {
  }

  /** The leads of a run so far are numbered 1, 2, 3, ... */
  lemma RunLeadsNumbered(pg: Page, f: LeadFilters, inputs: seq<TickInput>)
    requires |inputs| <= LastBatch(f.quantity)
    ensures NumberedLeads(Run(pg, f, inputs).progress.leads, f)
  {
    RunProgress(pg, f, inputs);
  }

  /** Appending batch k to the 30(k-1) leads numbered so far continues the numbering. */
  lemma NumberedAfterBatch(leads: seq<Lead>, f: LeadFilters, k: nat, input: TickInput)
    requires k >= 1 && |leads| == (k - 1) * BatchSize
    requires NumberedLeads(leads, f)
    ensures NumberedLeads(leads + NewLeads(f, k, input), f)
  {
    var added := NewLeads(f, k, input);
    var all := leads + added;
    var n := |leads|;
    forall j | 0 <= j < |all| ensures NumberedLead(all[j], j + 1, f) {
      if j >= n {
        assert all[j] == added[j - n];
        LeadNumber(f, k, j - n, input, j + 1);
      } else {
        assert all[j] == leads[j];
      }
    }
  }

  /** The estimate never grows from one batch to the next and reaches 0 at the last batch. */
  lemma EtaCountsDown(q: nat, a: nat, b: nat)
    requires a <= b
    ensures Eta(q, b) <= Eta(q, a)
    ensures Eta(q, LastBatch(q)) == 0
  {
  }

  /** `generated` never decreases from one batch to the next. */
  lemma GeneratedGrows(q: nat, a: nat, b: nat)
    requires a <= b
    ensures Generated(q, a) <= Generated(q, b)
  {
  }

  /** 100 leads take four batches of 30, 30, 30 and 10 with estimates 6, 4, 2 and 0 seconds. */
  lemma HundredLeads()
    ensures TotalBatches(100) == 4 && LastBatch(100) == 4
    ensures BatchCount(100, 1) == 30 && BatchCount(100, 2) == 30 && BatchCount(100, 3) == 30 && BatchCount(100, 4) == 10
    ensures Eta(100, 0) == 8 && Eta(100, 1) == 6 && Eta(100, 2) == 4 && Eta(100, 3) == 2 && Eta(100, 4) == 0
  {
  }

  /**
   * Stopping does not end a run: the interval keeps adding leads while the
   * status stays 'idle', and its last batch still marks the run completed
   * and records it in the history.
   */
  lemma StoppedRunKeepsGoing(pg: Page, f: LeadFilters, batch: nat, input: TickInput)
    requires batch >= 1
    ensures var r := Fired(Stopped(pg), f, batch, input);
      && |r.progress.leads| == |pg.progress.leads| + BatchCount(f.quantity, batch)
      && (!Finishes(f.quantity, batch) ==> r.progress.status == Idle && r.history == pg.history)
      && (Finishes(f.quantity, batch) ==> r.progress.status == Completed && |r.history| == |pg.history| + 1)
  {
  }

  // ---- History ----

  /** `history.filter(h => h.id !== id)`. */
  function RemoveSearch(h: seq<SearchHistory>, id: string): (r: seq<SearchHistory>)
    ensures |r| <= |h|
    ensures forall i :: 0 <= i < |r| ==> r[i].id != id
  {
    if h == [] then []
    else (if h[0].id == id then [] else [h[0]]) + RemoveSearch(h[1..], id)
  }

  /** Deleting keeps exactly the entries with another id. */
  lemma {:induction false} RemoveSearchKeepsOthers(h: seq<SearchHistory>, id: string)
    ensures forall e :: e in RemoveSearch(h, id) <==> e in h && e.id != id
    decreases |h|
  {
    if h != [] {
      RemoveSearchKeepsOthers(h[1..], id);
      assert h == [h[0]] + h[1..];
    }
  }

  /** Deleting keeps the order of the other entries: it works piecewise on a concatenation. */
  lemma {:induction false} RemoveSearchSplits(a: seq<SearchHistory>, b: seq<SearchHistory>, id: string)
    ensures RemoveSearch(a + b, id) == RemoveSearch(a, id) + RemoveSearch(b, id)
    decreases |a|
  {
    if a != [] {
      assert (a + b)[0] == a[0];
      assert (a + b)[1..] == a[1..] + b;
      RemoveSearchSplits(a[1..], b, id);
      var head := if a[0].id == id then [] else [a[0]];
      assert RemoveSearch(a + b, id) == head + RemoveSearch(a[1..] + b, id);
      assert RemoveSearch(a, id) == head + RemoveSearch(a[1..], id);
      assert head + (RemoveSearch(a[1..], id) + RemoveSearch(b, id)) == (head + RemoveSearch(a[1..], id)) + RemoveSearch(b, id);
    } else {
      assert a + b == b;
    }
  }

  /** Deleting an id no entry has leaves the history as it was. */
  lemma {:induction false} RemoveAbsentSearch(h: seq<SearchHistory>, id: string)
    requires forall i :: 0 <= i < |h| ==> h[i].id != id
    ensures RemoveSearch(h, id) == h
    decreases |h|
  {
    if h != [] {
      RemoveAbsentSearch(h[1..], id);
    }
  }

  /** `history.find(h => h.id === id)`. */
  function FindSearch(h: seq<SearchHistory>, id: string): (r: Option<SearchHistory>)
    ensures r.None? <==> forall i :: 0 <= i < |h| ==> h[i].id != id
    ensures r.Some? ==> r.value in h && r.value.id == id
    ensures r.Some? ==> exists i :: 0 <= i < |h| && h[i] == r.value && forall j :: 0 <= j < i ==> h[j].id != id
  {
    if h == [] then None
    else if h[0].id == id then Some(h[0])
    else FindSearch(h[1..], id)
  }

  /** The toast of `handleRedownload`; nothing happens for an unknown id. */
  function RedownloadNotice(h: seq<SearchHistory>, id: string): (r: Option<string>)
    ensures r.None? <==> FindSearch(h, id).None?
    ensures r.Some? ==> r.value == "Download da busca #" + SliceLast(id, 6) + " iniciado"
  {
    if FindSearch(h, id).Some? then Some("Download da busca #" + SliceLast(id, 6) + " iniciado") else None
  }

  function Deleted(pg: Page, id: string): (r: Page)
    ensures r.history == RemoveSearch(pg.history, id)
    ensures r.progress == pg.progress && r.loading == pg.loading && r.view == pg.view
  {
    pg.(history := RemoveSearch(pg.history, id))
  }

  // ---- CSV export ----

  const CsvColumns: seq<string> := ["Nome", "Email", "Telefone", "Cidade", "País", "Fonte"]

  function LeadFields(l: Lead): (cells: seq<string>)
    ensures |cells| == |CsvColumns|
  {
    [l.name, l.email, l.phone, l.city, l.country, l.source]
  }

  /** One CSV row: the six fields joined by commas, without quoting. */
  function Row(l: Lead): string { Join(LeadFields(l), ',') }

  /** The lines of the file: the header, then one row per lead in order. */
  function CsvLines(leads: seq<Lead>): (lines: seq<string>)
    ensures |lines| == |leads| + 1
    ensures lines[0] == Join(CsvColumns, ',')
    ensures forall i :: 0 <= i < |leads| ==> lines[i + 1] == Row(leads[i])
  {
    [Join(CsvColumns, ',')] + seq(|leads|, i requires 0 <= i < |leads| => Row(leads[i]))
  }

  /** `downloadCSV`'s file body. */
  function Csv(leads: seq<Lead>): string { Join(CsvLines(leads), '\n') }

  datatype Download = Download(fileName: string, content: string)

  function DownloadLeads(leads: seq<Lead>, name: string): (d: Download)
    ensures d.fileName == name + ".csv" && d.content == Csv(leads)
  {
    Download(name + ".csv", Csv(leads))
  }

  /** `handleDownloadLast30`: the final min(30, N) leads, in order. */
  function DownloadLast30(p: LeadGenerationProgress): (d: Download)
    ensures d.fileName == "ultimos-30-leads.csv"
    ensures var m := if |p.leads| < 30 then |p.leads| else 30;
      d.content == Csv(p.leads[|p.leads| - m..])
  {
    DownloadLeads(SliceLast(p.leads, 30), "ultimos-30-leads")
  }

  /** `handleDownloadAll`: every lead, in a file named after the requested total. */
  function DownloadAll(p: LeadGenerationProgress): (d: Download)
    ensures d.fileName == "todos-" + NatToString(p.total) + "-leads.csv"
    ensures d.content == Csv(p.leads)
  {
    DownloadLeads(p.leads, "todos-" + NatToString(p.total) + "-leads")
  }

  predicate LeadFree(l: Lead, c: char)
  {
    forall k :: 0 <= k < |LeadFields(l)| ==> NoChar(LeadFields(l)[k], c)
  }

  lemma HeaderHasNoBreak()
    ensures '\n' !in Join(CsvColumns, ',')
  {
  }

  lemma RowHasNoBreak(l: Lead)
    requires LeadFree(l, '\n')
    ensures '\n' !in Row(l)
  {
    JoinAvoids(LeadFields(l), ',', '\n');
  }

  /** Without line breaks in the fields, the file has one line more than there are leads. */
  lemma CsvLineCount(leads: seq<Lead>)
    requires forall i :: 0 <= i < |leads| ==> LeadFree(leads[i], '\n')
    ensures Split(Csv(leads), '\n') == CsvLines(leads)
    ensures |Split(Csv(leads), '\n')| == |leads| + 1
  {
    var lines := CsvLines(leads);
    HeaderHasNoBreak();
    forall k | 0 <= k < |lines| ensures '\n' !in lines[k] {
      if k > 0 {
        RowHasNoBreak(leads[k - 1]);
      }
    }
    SplitJoin(lines, '\n');
  }

  /** A row read back at its commas gives the six fields, when none holds a comma. */
  lemma RowReadsBack(l: Lead)
    requires LeadFree(l, ',')
    ensures Split(Row(l), ',') == LeadFields(l)
  {
    SplitJoin(LeadFields(l), ',');
  }

  /** The number-rendering part of a generated field holds neither a comma nor a line break. */
  lemma NumberAvoids(n: nat, c: char)
    requires c == ',' || c == '\n'
    ensures NoChar(NatToString(n), c)
  {
    DigitsAvoid(NatToString(n), c);
  }

  /**
   * A generated lead holds no comma or line break of its own: its row reads
   * back as its six fields whenever the run's city and country hold no comma.
   */
  lemma GeneratedLeadIsCsvSafe(f: LeadFilters, batch: nat, i: nat, input: TickInput, c: char)
    requires batch >= 1
    requires c == ',' || c == '\n'
    requires NoChar(f.city, c) && NoChar(f.country, c)
    ensures LeadFree(MakeLead(f, batch, i, input), c)
  {
    var l := MakeLead(f, batch, i, input);
    var k := (batch - 1) * BatchSize + i + 1;
    NumberAvoids(k, c);
    assert NoChar("Lead ", c) && NoChar("lead", c) && NoChar("@example.com", c);
    ConcatAvoids("Lead ", NatToString(k), c);
    ConcatAvoids("lead", NatToString(k), c);
    ConcatAvoids("lead" + NatToString(k), "@example.com", c);
    var p1 := NatToString(PhoneBlock(input.draws(2 * i)));
    var p2 := NatToString(PhoneBlock(input.draws(2 * i + 1)));
    NumberAvoids(PhoneBlock(input.draws(2 * i)), c);
    NumberAvoids(PhoneBlock(input.draws(2 * i + 1)), c);
    assert NoChar("+55 11 9", c) && NoChar("-", c) && NoChar("Generated", c);
    ConcatAvoids("+55 11 9", p1, c);
    ConcatAvoids("+55 11 9" + p1, "-", c);
    ConcatAvoids("+55 11 9" + p1 + "-", p2, c);
    assert l.phone == "+55 11 9" + p1 + "-" + p2;
  }

  /**
   * The fields are written without quoting, so a city such as "Curitiba, PR"
   * turns into two cells and pushes the country and source one column right.
   */
  lemma CommaInCityShiftsColumns(l: Lead, a: string, b: string)
    requires l.city == a + "," + b
    requires NoChar(a, ',') && NoChar(b, ',')
    requires NoChar(l.name, ',') && NoChar(l.email, ',') && NoChar(l.phone, ',')
    requires NoChar(l.country, ',') && NoChar(l.source, ',')
    ensures Split(Row(l), ',') == [l.name, l.email, l.phone, a, b, l.country, l.source]
    ensures |Split(Row(l), ',')| == |CsvColumns| + 1
  {
    var t := Join([l.country, l.source], ',');
    JoinCons(b, [l.country, l.source], ',');
    JoinCons(a, [b, l.country, l.source], ',');
    JoinCons(l.city, [l.country, l.source], ',');
    var tail := Join([a, b, l.country, l.source], ',');
    assert Join([l.city, l.country, l.source], ',') == tail;
    JoinCons(l.phone, [a, b, l.country, l.source], ',');
    JoinCons(l.phone, [l.city, l.country, l.source], ',');
    JoinCons(l.email, [l.phone, a, b, l.country, l.source], ',');
    JoinCons(l.email, [l.phone, l.city, l.country, l.source], ',');
    JoinCons(l.name, [l.email, l.phone, a, b, l.country, l.source], ',');
    JoinCons(l.name, [l.email, l.phone, l.city, l.country, l.source], ',');
    var cells := [l.name, l.email, l.phone, a, b, l.country, l.source];
    assert [l.name] + [l.email, l.phone, a, b, l.country, l.source] == cells;
    assert [l.name] + [l.email, l.phone, l.city, l.country, l.source] == LeadFields(l);
    assert Join(cells, ',') == Row(l);
    SplitJoin(cells, ',');
  }

  // ---- The screen ----

  /** A running `setInterval` closure: the filters it captured and its own batch counter. */
  class Interval {
    const filters: LeadFilters
    var currentBatch: nat
    var active: bool

    /** The counter stays within the run and the interval is live until the last batch. */
    predicate Valid()
      reads this
    {
      currentBatch <= LastBatch(filters.quantity) &&
      (active <==> currentBatch < LastBatch(filters.quantity))
    }

    constructor (f: LeadFilters)
      ensures filters == f && currentBatch == 0 && active && Valid()
    {
      filters := f;
      currentBatch := 0;
      active := true;
    }
  }

  class GenerationPage {
    var progress: LeadGenerationProgress
    var history: seq<SearchHistory>
    var loading: bool
    var view: View

    function Snapshot(): Page
      reads this
    {
      Page(progress, history, loading, view)
    }

    constructor ()
      ensures Snapshot() == Initial()
    {
      progress := LeadGenerationProgress(0, 0, 0, 0, Idle, []);
      history := [];
      loading := false;
      view := FiltersView;
    }

    method LoadHistory(oneDayAgo: string, twoDaysAgo: string)
      modifies this
      ensures Snapshot() == HistoryLoaded(old(Snapshot()), oneDayAgo, twoDaysAgo)
    {
      history := MockHistory(oneDayAgo, twoDaysAgo);
    }

    method ShowView(v: View)
      modifies this
      ensures Snapshot() == old(Snapshot()).(view := v)
    {
      view := v;
    }

    /** `handleGenerateLeads`: resets the progress and starts a new interval. */
    method GenerateLeads(f: LeadFilters) returns (iv: Interval)
      modifies this
      ensures Snapshot() == Started(old(Snapshot()), f)
      ensures fresh(iv) && iv.filters == f && iv.currentBatch == 0 && iv.active && iv.Valid()
    {
      loading := true;
      progress := LeadGenerationProgress(f.quantity, 0, 0, TotalBatches(f.quantity) * SecondsPerBatch, Generating, []);
      view := ProgressView;
      iv := new Interval(f);
    }

    /** One firing of `iv`; the last batch clears it and records the search. */
    method Tick(iv: Interval, input: TickInput)
      requires iv.active && iv.Valid()
      modifies this, iv
      ensures iv.currentBatch == old(iv.currentBatch) + 1 && iv.Valid()
      ensures iv.active <==> !Finishes(iv.filters.quantity, iv.currentBatch)
      ensures Snapshot() == Fired(old(Snapshot()), iv.filters, iv.currentBatch, input)
    {
      iv.currentBatch := iv.currentBatch + 1;
      var batch := iv.currentBatch;
      var q := iv.filters.quantity;
      var generated := Generated(q, batch);
      progress := progress.(generated := generated, currentBatch := batch,
                            estimatedTimeRemaining := Eta(q, batch),
                            leads := progress.leads + NewLeads(iv.filters, batch, input));
      if batch >= TotalBatches(q) {
        iv.active := false;
        progress := progress.(status := Completed);
        loading := false;
        history := [CompletedSearch(iv.filters, generated, input)] + history;
      }
    }

    /** `handleDownloadLast30`: saves the last-30 file and toasts; the state is untouched. */
    method DownloadLastLeads() returns (d: Download, t: Toast)
      ensures d == DownloadLast30(progress)
      ensures t == SuccessToast("Download dos últimos 30 leads iniciado")
    {
      d := DownloadLast30(progress);
      t := SuccessToast("Download dos últimos 30 leads iniciado");
    }

    /** `handleStopGeneration`: no interval is touched, yet the toast announces the stop. */
    method StopGeneration() returns (t: Toast)
      modifies this
      ensures Snapshot() == Stopped(old(Snapshot()))
      ensures t == PlainToast("Geração interrompida")
    {
      progress := progress.(status := Idle);
      loading := false;
      t := PlainToast("Geração interrompida");
    }

    /** `handleDeleteSearch`: filters the history and toasts, whether or not the id was there. */
    method DeleteSearch(id: string) returns (t: Toast)
      modifies this
      ensures Snapshot() == Deleted(old(Snapshot()), id)
      ensures t == SuccessToast("Busca excluída com sucesso")
    {
      history := RemoveSearch(history, id);
      t := SuccessToast("Busca excluída com sucesso");
    }
  }
}
