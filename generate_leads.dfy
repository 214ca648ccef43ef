/**
 * The backend-driven generator of src/pages/GenerateLeads.tsx: the niche
 * labels, the form rules, the credit cap shown under the limit, the score
 * badge, the CSV key and file name, and the reset for a new search. The
 * backend call itself is outside the model; its answer is a parameter.
 */
module GenerateLeads {
  import opened Wrappers
  import opened Text
  import opened FormRules
  import opened Browser

  /** The lead record the backend returns (src/types/index.ts). */
  datatype ApiLead = ApiLead(
    id: string,
    nome: string,
    email: string,
    telefone: Option<string>,
    idade: int,
    cidade: string,
    estado: string,
    pais: string,
    nicho: string,
    score: int,
    dataInsercao: string)

  /** The form; a number input left empty is `None`. */
  datatype GenerateForm = GenerateForm(
    nicho: string,
    cidade: Option<string>,
    estado: Option<string>,
    pais: Option<string>,
    idadeMin: Option<int>,
    idadeMax: Option<int>,
    limit: Option<int>,
    includePhone: bool,
    includeEmail: bool,
    includeWebsite: bool)

  /**
   * `defaultValues`, which `reset()` also restores. They leave `pais` unset;
   * the country input's own DOM `defaultValue` "Brasil" is what it shows and
   * what is submitted until the user edits it. Nothing in this model reads
   * `pais`, since the backend request is a parameter.
   */
  function DefaultForm(): (f: GenerateForm)
    ensures f.nicho == "" && f.limit == Some(100)
    ensures f.includePhone && f.includeEmail && !f.includeWebsite
    ensures f.idadeMin.None? && f.idadeMax.None?
  {
    GenerateForm("", None, None, None, None, None, Some(100), true, true, false)
  }

  const Labels: map<string, string> := map[
    "estetica" := "Estética", "petshop" := "Pet Shop", "advocacia" := "Advocacia",
    "medicina" := "Medicina", "educacao" := "Educação", "tecnologia" := "Tecnologia",
    "financas" := "Finanças", "imoveis" := "Imóveis", "automoveis" := "Automóveis",
    "beleza" := "Beleza", "fitness" := "Fitness", "gastronomia" := "Gastronomia",
    "moda" := "Moda", "turismo" := "Turismo", "outros" := "Outros"]

  /** `getNichoLabel`: the table's label for a known niche, the niche itself otherwise. */
  function NichoLabel(nicho: string): (r: string)
    ensures nicho in Labels ==> r == Labels[nicho]
    ensures nicho !in Labels ==> r == nicho
  {
    if nicho in Labels then Labels[nicho] else nicho
  }

  predicate StartsLower(s: string) { |s| > 0 && 'a' <= s[0] <= 'z' }

  /** Every niche key is lower-case and every label starts with a capital. */
  lemma LabelTable()
    ensures forall a :: a in Labels ==> StartsLower(a) && !StartsLower(Labels[a])
  {
  }

  /** Labelling twice changes nothing more: no label is itself a niche key. */
  lemma NichoLabelIdempotent(nicho: string)
    ensures NichoLabel(NichoLabel(nicho)) == NichoLabel(nicho)
  {
    LabelTable();
  }

  /** `min` then `max` on a number field; an empty field passes. */
  function RangeError(v: Option<int>, lo: int, hi: int, lowMessage: string, highMessage: string): (r: Option<string>)
    requires lo <= hi
    ensures r.None? <==> v.None? || lo <= v.value <= hi
    ensures v.Some? && v.value < lo ==> r == Some(lowMessage)
    ensures v.Some? && v.value > hi ==> r == Some(highMessage)
  {
    if v.None? then None
    else if v.value < lo then Some(lowMessage)
    else if v.value > hi then Some(highMessage)
    else None
  }

  function AgeError(v: Option<int>): (r: Option<string>)
    ensures r.None? <==> v.None? || 18 <= v.value <= 100
  {
    RangeError(v, 18, 100, "Idade mínima é 18 anos", "Idade máxima é 100 anos")
  }

  function LimitError(v: Option<int>): (r: Option<string>)
    ensures r.None? <==> v.None? || 1 <= v.value <= 1000
  {
    RangeError(v, 1, 1000, "Mínimo 1 lead", "Máximo 1000 leads")
  }

  /** The messages of the failing fields, in page order. */
  function Errors(f: GenerateForm): (msgs: seq<string>)
    ensures msgs == [] <==>
      f.nicho != "" &&
      (f.idadeMin.None? || 18 <= f.idadeMin.value <= 100) &&
      (f.idadeMax.None? || 18 <= f.idadeMax.value <= 100) &&
      (f.limit.None? || 1 <= f.limit.value <= 1000)
  {
    var rs := [RequiredError(f.nicho, "Nicho é obrigatório"), AgeError(f.idadeMin), AgeError(f.idadeMax),
               LimitError(f.limit)];
    assert rs[0] == RequiredError(f.nicho, "Nicho é obrigatório") && rs[1] == AgeError(f.idadeMin);
    assert rs[2] == AgeError(f.idadeMax) && rs[3] == LimitError(f.limit);
    Failures(rs)
  }

  /** The default form is rejected only for its missing niche. */
  lemma DefaultFormNeedsNiche()
    ensures Errors(DefaultForm()) == ["Nicho é obrigatório"]
    ensures forall n :: n != "" ==> Errors(DefaultForm().(nicho := n)) == []
  {
    var rs := [RequiredError("", "Nicho é obrigatório"), AgeError(None), AgeError(None), LimitError(Some(100))];
    assert Failures(rs[3..]) == [];
    assert Failures(rs[2..]) == [];
    assert Failures(rs[1..]) == [];
  }

  /** The submit button is disabled while loading or while no niche is chosen. */
  function SubmitDisabled(loading: bool, nicho: string): (d: bool)
    ensures !d <==> !loading && nicho != ""
  {
    loading || nicho == ""
  }

  /** A form the button lets through has passed the niche rule. */
  lemma EnabledSubmitHasNiche(f: GenerateForm, loading: bool)
    requires !SubmitDisabled(loading, f.nicho)
    ensures RequiredError(f.nicho, "Nicho é obrigatório").None?
  {
  }

  /** `Math.min(user?.credits || 0, 1000)`: no user or no credits count as 0. */
  function MaxShown(credits: Option<int>): (m: int)
    ensures m <= 1000
    ensures credits.None? ==> m == 0
    ensures credits.Some? ==> m == (if credits.value < 1000 then credits.value else 1000)
    ensures credits.Some? && credits.value >= 0 ==> 0 <= m <= credits.value
  {
    var c := if credits.Some? && credits.value != 0 then credits.value else 0;
    if c < 1000 then c else 1000
  }

  datatype Tier = High | Medium | Low

  /** The score badge's colour band. */
  function ScoreTier(score: int): (t: Tier)
    ensures t == High <==> score >= 80
    ensures t == Medium <==> 60 <= score < 80
    ensures t == Low <==> score < 60
  {
    if score >= 80 then High else if score >= 60 then Medium else Low
  }

  /** `csvUrl.split('/').pop() || ''`: the text after the last '/'. */
  function DownloadKey(csvUrl: string): (k: string)
    ensures '/' !in k
    ensures |k| <= |csvUrl| && csvUrl[|csvUrl| - |k|..] == k
    ensures |k| < |csvUrl| ==> csvUrl[|csvUrl| - |k| - 1] == '/'
    ensures '/' !in csvUrl ==> k == csvUrl
  {
    LastSplitShape(csvUrl, '/');
    LastSplit(csvUrl, '/')
  }

  /** For a path ending in "/<file>" the key is the file name. */
  lemma DownloadKeyOfPath(dir: string, file: string)
    requires '/' !in file
    ensures DownloadKey(dir + "/" + file) == file
  {
    var s := dir + "/" + file;
    assert s[|dir|] == '/';
    assert s[|s| - |file|..] == file;
  }

  /** `leads_<nicho>_<Date.now()>.csv`. */
  function SavedFileName(nicho: string, now: nat): (name: string)
    ensures |name| >= 12 && name[..6] == "leads_" && name[|name| - 4..] == ".csv"
  {
    "leads_" + nicho + "_" + NatToString(now) + ".csv"
  }

  /** Read back at its underscores, the file name gives the niche and the timestamp. */
  lemma SavedFileNameReadsBack(nicho: string, now: nat)
    requires NoChar(nicho, '_')
    ensures Split(SavedFileName(nicho, now), '_') == ["leads", nicho, NatToString(now) + ".csv"]
  {
    var ts := NatToString(now) + ".csv";
    DigitsAvoid(NatToString(now), '_');
    assert NoChar(".csv", '_');
    ConcatAvoids(NatToString(now), ".csv", '_');
    var parts := ["leads", nicho, ts];
    JoinCons(nicho, [ts], '_');
    JoinCons("leads", [nicho, ts], '_');
    assert Join(parts, '_') == SavedFileName(nicho, now);
    SplitJoin(parts, '_');
  }

  /** The toast text after a failed generation, when the API gives no message. */
  const FailureFallback := "Erro ao gerar leads"

  /** What the page holds. */
  datatype PageState = PageState(
    loading: bool,
    leads: seq<ApiLead>,
    showResults: bool,
    csvUrl: string,
    form: GenerateForm)

  /** The backend's answer to a generation request. */
  datatype GenerateResponse = GenerateResponse(leads: seq<ApiLead>, csvUrl: string, totalLeads: nat)

  const SuccessPrefix := "Leads gerados com sucesso! "
  const SuccessSuffix := " leads encontrados."

  /** The success toast, naming the total the backend reports. */
  function SuccessText(totalLeads: nat): (t: string)
    ensures |t| == |SuccessPrefix| + |NatToString(totalLeads)| + |SuccessSuffix|
    ensures t[..|SuccessPrefix|] == SuccessPrefix && t[|t| - |SuccessSuffix|..] == SuccessSuffix
  {
    SuccessPrefix + NatToString(totalLeads) + SuccessSuffix
  }

  predicate NoDigits(s: string) { forall i :: 0 <= i < |s| ==> !IsDigit(s[i]) }

  /** Between digit-free texts, the digits of `a + d + b` are exactly those of `d`. */
  lemma DigitsBetween(a: string, d: string, b: string)
    requires NoDigits(a) && AllDigits(d) && NoDigits(b)
    ensures var t := a + d + b;
      t[|a|..|a| + |d|] == d &&
      forall i :: 0 <= i < |t| ==> (IsDigit(t[i]) <==> |a| <= i < |a| + |d|)
  {
    var t := a + d + b;
    forall i | 0 <= i < |t|
      ensures IsDigit(t[i]) <==> |a| <= i < |a| + |d|
    {
      if i < |a| {
        assert t[i] == a[i];
      } else if i < |a| + |d| {
        assert t[i] == d[i - |a|];
      } else {
        assert t[i] == b[i - |a| - |d|];
      }
    }
  }

  /** The digits of the success toast are exactly those of the reported total. */
  lemma SuccessTextShowsTotal(totalLeads: nat)
    ensures var t := SuccessText(totalLeads); var d := NatToString(totalLeads);
      t[|SuccessPrefix|..|SuccessPrefix| + |d|] == d &&
      forall i :: 0 <= i < |t| ==> (IsDigit(t[i]) <==> |SuccessPrefix| <= i < |SuccessPrefix| + |d|)
  {
    assert NoDigits(SuccessPrefix);
    assert NoDigits(SuccessSuffix);
    DigitsBetween(SuccessPrefix, NatToString(totalLeads), SuccessSuffix);
  }

  /** What a submission leaves behind: the page and the toast it raised. */
  datatype Handled = Handled(state: PageState, toast: Toast)

  /**
   * `onSubmit` given how the request ended: the answer, or the error's
   * message (`None` for a failure without one). Success shows the results and
   * toasts the reported total; failure toasts the API message or the fallback
   * text. Loading ends on both paths.
   */
  function Submitted(s: PageState, outcome: Result<GenerateResponse, Option<string>>): (r: Handled)
    ensures !r.state.loading && r.state.form == s.form
    ensures outcome.Ok? ==>
      r.state.showResults && r.state.leads == outcome.value.leads && r.state.csvUrl == outcome.value.csvUrl &&
      r.toast == SuccessToast(SuccessText(outcome.value.totalLeads))
    ensures outcome.Err? ==>
      r.state.showResults == s.showResults && r.state.leads == s.leads && r.state.csvUrl == s.csvUrl &&
      r.toast == ErrorToast(FallbackText(outcome.error, FailureFallback))
    ensures outcome.Err? ==> r.toast.text != ""
  {
    match outcome
    case Ok(resp) =>
      Handled(s.(loading := false, leads := resp.leads, csvUrl := resp.csvUrl, showResults := true),
              SuccessToast(SuccessText(resp.totalLeads)))
    case Err(message) =>
      Handled(s.(loading := false), ErrorToast(FallbackText(message, FailureFallback)))
  }

  /** What `handleDownloadCsv` does: the key it requests, the file it saves, its toast. */
  datatype CsvDownload = CsvDownload(key: string, savedAs: Option<string>, toast: Toast)

  /**
   * `handleDownloadCsv` given whether the download request succeeded, with
   * `now` standing for `Date.now()`. A file is saved iff the request
   * succeeded; the failure toast is fixed and ignores the error.
   */
  function DownloadCsv(csvUrl: string, nicho: string, now: nat, succeeded: bool): (r: CsvDownload)
    ensures r.key == DownloadKey(csvUrl)
    ensures r.savedAs.Some? <==> succeeded
    ensures succeeded ==> r.savedAs == Some(SavedFileName(nicho, now)) && r.toast == SuccessToast("CSV baixado com sucesso!")
    ensures !succeeded ==> r.toast == ErrorToast("Erro ao baixar CSV")
  {
    if succeeded then CsvDownload(DownloadKey(csvUrl), Some(SavedFileName(nicho, now)), SuccessToast("CSV baixado com sucesso!"))
    else CsvDownload(DownloadKey(csvUrl), None, ErrorToast("Erro ao baixar CSV"))
  }

  /** `handleNewSearch`: back to an empty form with no results. */
  function NewSearch(s: PageState): (r: PageState)
    ensures !r.showResults && r.leads == [] && r.csvUrl == "" && r.form == DefaultForm()
    ensures r.loading == s.loading
  {
    s.(showResults := false, leads := [], csvUrl := "", form := DefaultForm())
  }

  /** After a new search the download key is empty. */
  lemma NewSearchClearsKey(s: PageState)
    ensures DownloadKey(NewSearch(s).csvUrl) == ""
  {
  }
}
