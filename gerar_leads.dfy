/**
 * The simple generator of src/pages/GerarLeads.tsx: `handleGenerateLeads`
 * builds `limit` sample leads from the form, `handleDownloadCSV` exports
 * them, and the success toast names the count. The two-second pause and
 * `new Date().toISOString()` are outside the model; the ISO text and the
 * random draws are parameters.
 */
module GerarLeads {
  import opened Wrappers
  import opened Text
  import opened Browser

  datatype LeadForm = LeadForm(
    nicho: string,
    cidade: string,
    estado: string,
    pais: string,
    idadeMin: int,
    idadeMax: int,
    includePhone: bool,
    includeEmail: bool,
    includeWebsite: bool,
    limit: nat)

  datatype Lead = Lead(
    nome: string,
    email: string,
    telefone: Option<string>,
    site: Option<string>,
    idade: int,
    cidade: string,
    estado: string,
    nicho: string)

  function DefaultForm(): (f: LeadForm)
    ensures f.pais == "Brasil" && f.idadeMin == 18 && f.idadeMax == 65 && f.limit == 100
    ensures f.includePhone && f.includeEmail && !f.includeWebsite
  {
    LeadForm("", "", "", "Brasil", 18, 65, true, true, false, 100)
  }

  /**
   * `Math.floor(r * (max - min + 1)) + min`. With min <= max the age lies in
   * [min, max]; the two age inputs are independent, and with min > max it
   * lies in [max + 1, min] instead.
   */
  function Age(min: int, max: int, r: Draw): (a: int)
    ensures min <= max ==> min <= a <= max
    ensures min > max ==> max < a <= min
  {
    ScaledDrawBounds(r, max - min + 1);
    (r * ((max - min + 1) as real)).Floor + min
  }

  /** `r * span` for a draw r lies in [0, span) for a positive span, in [span, 0] otherwise. */
  lemma ScaledDrawBounds(r: Draw, span: int)
    ensures span > 0 ==> 0 <= (r * (span as real)).Floor < span
    ensures span <= 0 ==> span <= (r * (span as real)).Floor <= 0
  {
    if span > 0 {
      ScaledBelow(r, span as real);
    } else {
      ScaledBelow(r, -(span as real));
      assert r * (span as real) == -(r * -(span as real));
    }
  }

  /** A draw scales a non-negative bound into [0, bound], and strictly below a positive one. */
  lemma ScaledBelow(r: Draw, b: real)
    requires b >= 0.0
    ensures 0.0 <= r * b <= b
    ensures b > 0.0 ==> r * b < b
  {
    assert b - r * b == (1.0 - r) * b;
  }

  function PhoneFor(i: nat): (p: string)
    ensures |p| >= 15 && p[..11] == "(11) 99999-"
  {
    "(11) 99999-" + PadStart(NatToString(i + 1), 4, '0')
  }

  /** Sample lead `i` (0-based). */
  function MockLead(data: LeadForm, i: nat, r: Draw): (l: Lead)
    ensures l.nome == "João Silva " + NatToString(i + 1)
    ensures l.email == "joao.silva" + NatToString(i + 1) + "@email.com"
    ensures l.telefone.Some? <==> data.includePhone
    ensures l.telefone.Some? ==> l.telefone.value == PhoneFor(i)
    ensures l.site.Some? <==> data.includeWebsite
    ensures l.site.Some? ==> l.site.value == "www.empresa" + NatToString(i + 1) + ".com.br"
    ensures l.idade == Age(data.idadeMin, data.idadeMax, r)
    ensures l.cidade == (if data.cidade == "" then "São Paulo" else data.cidade)
    ensures l.estado == (if data.estado == "" then "SP" else data.estado)
    ensures l.nicho == data.nicho
  {
    Lead("João Silva " + NatToString(i + 1),
         "joao.silva" + NatToString(i + 1) + "@email.com",
         if data.includePhone then Some(PhoneFor(i)) else None,
         if data.includeWebsite then Some("www.empresa" + NatToString(i + 1) + ".com.br") else None,
         Age(data.idadeMin, data.idadeMax, r),
         if data.cidade == "" then "São Paulo" else data.cidade,
         if data.estado == "" then "SP" else data.estado,
         data.nicho)
  }

  /** The generated list: exactly `limit` leads; lead i uses draw i. */
  function MockLeads(data: LeadForm, draws: nat -> Draw): (leads: seq<Lead>)
    ensures |leads| == data.limit
    ensures forall i :: 0 <= i < |leads| ==> leads[i] == MockLead(data, i, draws(i))
  {
    seq(data.limit, i requires 0 <= i => MockLead(data, i, draws(i)))
  }

  const GeneratedSuffix := " leads gerados com sucesso!"

  /** The toast after a generation: the requested count, then the fixed text. */
  function GeneratedToast(data: LeadForm): (t: Toast)
    ensures t.SuccessToast? && |t.text| > |GeneratedSuffix|
    ensures t.text[|t.text| - |GeneratedSuffix|..] == GeneratedSuffix
  {
    SuccessToast(NatToString(data.limit) + GeneratedSuffix)
  }

  /** The number the toast announces is the number of leads built. */
  lemma GeneratedToastCountsLeads(data: LeadForm, draws: nat -> Draw)
    ensures var t := GeneratedToast(data).text;
      ' ' in t && AllDigits(t[..IndexOf(t, ' ')]) &&
      DigitsValue(t[..IndexOf(t, ' ')]) == |MockLeads(data, draws)|
  {
    NatToStringRoundTrip(data.limit);
    LeadingNumber(NatToString(data.limit), GeneratedSuffix, data.limit);
  }

  /** With a sensible age range every generated age lies inside it. */
  lemma AgesWithinRange(data: LeadForm, draws: nat -> Draw)
    requires data.idadeMin <= data.idadeMax
    ensures forall l :: l in MockLeads(data, draws) ==> data.idadeMin <= l.idade <= data.idadeMax
  {
  }

  /**
   * Up to lead 9999 the phone ends in exactly four digits that read back as
   * the lead's number, so phones of different leads differ.
   */
  lemma PhoneNumbersLeads(i: nat)
    requires i + 1 < 10000
    ensures var p := PhoneFor(i); var tail := p[|p| - 4..];
      |p| == 15 && AllDigits(tail) && DigitsValue(tail) == i + 1
  {
    NatToStringFits(i + 1, 4);
    PaddedNatValue(i + 1, 4);
    var p := PhoneFor(i);
    var padded := PadStart(NatToString(i + 1), 4, '0');
    assert |padded| == 4;
    assert p[|p| - 4..] == padded;
  }

  const CsvColumns: seq<string> := ["Nome", "Email", "Telefone", "Site", "Idade", "Cidade", "Estado", "Nicho"]

  /** A row: missing phone or site become empty cells, the age is written in decimal. */
  function LeadFields(l: Lead): (cells: seq<string>)
    ensures |cells| == |CsvColumns|
    ensures cells[2] == l.telefone.GetOr("") && cells[3] == l.site.GetOr("")
    ensures cells[4] == IntToString(l.idade)
  {
    [l.nome, l.email, l.telefone.GetOr(""), l.site.GetOr(""), IntToString(l.idade), l.cidade, l.estado, l.nicho]
  }

  /** One CSV row: the eight cells joined by commas, without quoting. */
  function Row(l: Lead): string { Join(LeadFields(l), ',') }

  function CsvLines(leads: seq<Lead>): (lines: seq<string>)
    ensures |lines| == |leads| + 1
    ensures lines[0] == Join(CsvColumns, ',')
    ensures forall i :: 0 <= i < |leads| ==> lines[i + 1] == Row(leads[i])
  {
    [Join(CsvColumns, ',')] + seq(|leads|, i requires 0 <= i < |leads| => Row(leads[i]))
  }

  datatype Download = Download(fileName: string, content: string)

  /** `leads_` followed by the date part of the ISO timestamp. */
  function FileName(isoNow: string): (name: string)
    ensures |name| >= 10 && name[..6] == "leads_" && name[|name| - 4..] == ".csv"
  {
    "leads_" + FirstSplit(isoNow, 'T') + ".csv"
  }

  /** `handleDownloadCSV`: nothing for an empty list, otherwise the file. */
  function DownloadCsv(leads: seq<Lead>, isoNow: string): (d: Option<Download>)
    ensures d.None? <==> leads == []
    ensures d.Some? ==> d.value.content == Join(CsvLines(leads), '\n') && d.value.fileName == FileName(isoNow)
  {
    if leads == [] then None else Some(Download(FileName(isoNow), Join(CsvLines(leads), '\n')))
  }

  /** For an ISO timestamp "<date>T<time>" the file is named after the date. */
  lemma FileNameIsDate(date: string, time: string)
    requires 'T' !in date
    ensures FileName(date + "T" + time) == "leads_" + date + ".csv"
  {
    var s := date + "T" + time;
    assert s[..|date|] == date && s[|date|] == 'T';
  }

  /** The decimal rendering of a number, possibly signed, holds no line break. */
  lemma NumberHasNoBreak(n: int)
    ensures NoChar(IntToString(n), '\n')
    ensures n >= 0 ==> NoChar(PadStart(NatToString(n), 4, '0'), '\n')
  {
    if n >= 0 {
      DigitsAvoid(NatToString(n), '\n');
    } else {
      DigitsAvoid(NatToString(-n), '\n');
    }
  }

  /** A sample lead's row holds no line break when the form's texts hold none. */
  lemma MockRowHasNoBreak(data: LeadForm, i: nat, r: Draw)
    requires NoChar(data.cidade, '\n') && NoChar(data.estado, '\n') && NoChar(data.nicho, '\n')
    ensures NoChar(Row(MockLead(data, i, r)), '\n')
  {
    var cells := LeadFields(MockLead(data, i, r));
    forall k | 0 <= k < |cells| ensures NoChar(cells[k], '\n') {
      MockCellHasNoBreak(data, i, r, k);
    }
    JoinAvoids(cells, ',', '\n');
  }

  lemma MockCellHasNoBreak(data: LeadForm, i: nat, r: Draw, k: nat)
    requires NoChar(data.cidade, '\n') && NoChar(data.estado, '\n') && NoChar(data.nicho, '\n')
    requires k < |CsvColumns|
    ensures NoChar(LeadFields(MockLead(data, i, r))[k], '\n')
  {
    var l := MockLead(data, i, r);
    var n := NatToString(i + 1);
    DigitsAvoid(n, '\n');
    if k == 0 {
      ConcatAvoids("João Silva ", n, '\n');
    } else if k == 1 {
      ConcatAvoids("joao.silva", n, '\n');
      ConcatAvoids("joao.silva" + n, "@email.com", '\n');
    } else if k == 2 {
      NumberHasNoBreak(i + 1);
      ConcatAvoids("(11) 99999-", PadStart(n, 4, '0'), '\n');
    } else if k == 3 {
      ConcatAvoids("www.empresa", n, '\n');
      ConcatAvoids("www.empresa" + n, ".com.br", '\n');
    } else if k == 4 {
      NumberHasNoBreak(l.idade);
    }
  }

  lemma HeaderHasNoBreak()
    ensures NoChar(Join(CsvColumns, ','), '\n')
  {
    JoinAvoids(CsvColumns, ',', '\n');
  }

  /** Rows without line breaks: the file splits back into the header and the rows. */
  lemma LinesReadBack(leads: seq<Lead>)
    requires forall i :: 0 <= i < |leads| ==> NoChar(Row(leads[i]), '\n')
    ensures Split(Join(CsvLines(leads), '\n'), '\n') == CsvLines(leads)
  {
    var lines := CsvLines(leads);
    HeaderHasNoBreak();
    forall k | 0 <= k < |lines| ensures NoChar(lines[k], '\n') {
      if k > 0 {
        assert lines[k] == Row(leads[k - 1]);
      }
    }
    SplitJoin(lines, '\n');
  }

  /**
   * The file has one line per lead after the header whenever the form's
   * city, state and niche hold no line break.
   */
  lemma CsvLineCount(data: LeadForm, draws: nat -> Draw)
    requires NoChar(data.cidade, '\n') && NoChar(data.estado, '\n') && NoChar(data.nicho, '\n')
    ensures var lines := CsvLines(MockLeads(data, draws));
      Split(Join(lines, '\n'), '\n') == lines && |lines| == data.limit + 1
  {
    var leads := MockLeads(data, draws);
    forall i | 0 <= i < |leads| ensures NoChar(Row(leads[i]), '\n') {
      MockRowHasNoBreak(data, i, draws(i));
    }
    LinesReadBack(leads);
  }
}
