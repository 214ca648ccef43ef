/**
 * The history list of src/components/SearchHistory.tsx: the one entry a click
 * expands, the count and entry labels, the status texts and the actions an
 * expanded entry offers. Dates and `toLocaleString` numbers are not rendered.
 */
module HistoryList {
  import opened Wrappers
  import opened Text
  import opened LeadTypes
  import LeadGeneration

  /** The selection after clicking entry `clicked`: the selected entry closes, any other opens. */
  function NextSelection(selected: Option<string>, clicked: string): (r: Option<string>)
    ensures r.None? <==> selected == Some(clicked)
    ensures r.Some? ==> r.value == clicked
  {
    if selected == Some(clicked) then None else Some(clicked)
  }

  /** Clicking the same entry twice reopens it only if it was open to begin with. */
  lemma ClickTwice(selected: Option<string>, clicked: string)
    ensures NextSelection(NextSelection(selected, clicked), clicked)
         == (if selected == Some(clicked) then selected else None)
  {
  }

  class HistoryPanel {
    var selectedSearch: Option<string>

    constructor ()
      ensures selectedSearch == None
    {
      selectedSearch := None;
    }

    /** The entry's `onClick`. */
    method Click(id: string)
      modifies this
      ensures selectedSearch == NextSelection(old(selectedSearch), id)
    {
      if selectedSearch == Some(id) {
        selectedSearch := None;
      } else {
        selectedSearch := Some(id);
      }
    }
  }

  /** "<n> busca realizada", with both words in the plural unless n is 1. */
  function CountLabel(n: nat): (r: string)
    ensures n == 1 <==> r == "1 busca realizada"
    ensures n != 1 ==> r == NatToString(n) + " buscas realizadas"
  {
    var s := if n != 1 then "s" else "";
    NatToString(n) + " busca" + s + " realizada" + s
  }

  /** The count reads back from the label: it is everything before the first space. */
  lemma CountLabelReadsBack(n: nat)
    ensures ' ' in CountLabel(n)
    ensures AllDigits(CountLabel(n)[..IndexOf(CountLabel(n), ' ')])
    ensures DigitsValue(CountLabel(n)[..IndexOf(CountLabel(n), ' ')]) == n
  {
    var s := if n != 1 then "s" else "";
    var rest := " busca" + s + " realizada" + s;
    assert CountLabel(n) == NatToString(n) + rest;
    NatToStringRoundTrip(n);
    LeadingNumber(NatToString(n), rest, n);
  }

  /** Different counts never share a label. */
  lemma CountLabelInjective(m: nat, n: nat)
    requires CountLabel(m) == CountLabel(n)
    ensures m == n
  {
    CountLabelReadsBack(m);
    CountLabelReadsBack(n);
  }

  /** "Busca #" and the last six characters of the id, or the whole id when shorter. */
  function EntryLabel(id: string): (r: string)
    ensures |r| >= 7 && r[..7] == "Busca #"
    ensures |id| <= 6 ==> r == "Busca #" + id
    ensures |id| > 6 ==> |r| == 13 && r[7..] == id[|id| - 6..]
  {
    "Busca #" + SliceLast(id, 6)
  }

  /** The redownload toast names an entry by the suffix its label shows. */
  lemma NoticeNamesEntry(h: seq<SearchHistory>, id: string)
    requires LeadGeneration.FindSearch(h, id).Some?
    ensures LeadGeneration.RedownloadNotice(h, id)
         == Some("Download da busca #" + EntryLabel(id)[7..] + " iniciado")
  {
    var tail := SliceLast(id, 6);
    assert ("Busca #" + tail)[7..] == tail;
  }

  /** The icon and the badge colour: a green check or a red cross. */
  datatype Tone = Positive | Negative

  function ToneOf(status: SearchStatus): (t: Tone)
    ensures t == Negative <==> status.SearchFailed?
  {
    if status == SearchCompleted then Positive else Negative
  }

  /** The badge in the entry header. */
  function Badge(status: SearchStatus): (r: string)
    ensures r == "Falhou" <==> status.SearchFailed?
    ensures status.SearchCompleted? ==> r == "Concluída"
  {
    if status == SearchCompleted then "Concluída" else "Falhou"
  }

  /** The "Status:" line of the expanded details. */
  function DetailStatus(status: SearchStatus): (r: string)
    ensures r == "Falhou" <==> status.SearchFailed?
    ensures status.SearchCompleted? ==> r == "Concluído"
  {
    if status == SearchCompleted then "Concluído" else "Falhou"
  }

  /** The icon, the badge and the details line always agree on success or failure. */
  lemma StatusTextsAgree(a: SearchStatus, b: SearchStatus)
    ensures Badge(a) == Badge(b) <==> a == b
    ensures DetailStatus(a) == DetailStatus(b) <==> a == b
    ensures ToneOf(a) == ToneOf(b) <==> a == b
    ensures Badge(a) != DetailStatus(a) <==> a.SearchCompleted?
  {
  }

  /** The action buttons of an expanded entry. */
  datatype Actions = Actions(redownload: bool, delete: bool)

  function ActionsFor(status: SearchStatus): (r: Actions)
    ensures r.delete
    ensures r.redownload <==> status.SearchCompleted?
  {
    Actions(status == SearchCompleted, true)
  }

  /**
   * One rendered entry: the header, the filters preview (niche and location)
   * and, when expanded, `details` with the status line and the actions. The
   * expanded "Filtros Aplicados" list repeats the niche, city and country.
   */
  datatype EntryView = EntryView(
    title: string,
    badge: string,
    tone: Tone,
    niche: string,
    location: string,
    details: Option<(string, Actions)>)

  function EntryFor(e: SearchHistory, selected: Option<string>): (v: EntryView)
    ensures v.title == EntryLabel(e.id) && v.badge == Badge(e.status) && v.tone == ToneOf(e.status)
    ensures v.niche == e.filters.niche && v.location == e.filters.city + ", " + e.filters.country
    ensures v.details.Some? <==> selected == Some(e.id)
    ensures v.details.Some? ==> v.details.value == (DetailStatus(e.status), ActionsFor(e.status))
  {
    EntryView(
      EntryLabel(e.id), Badge(e.status), ToneOf(e.status), e.filters.niche,
      e.filters.city + ", " + e.filters.country,
      if selected == Some(e.id) then Some((DetailStatus(e.status), ActionsFor(e.status))) else None)
  }

  /** What the component shows: the empty state, or the count and one view per entry. */
  datatype View = EmptyState | Listing(count: string, entries: seq<EntryView>)

  function Render(h: seq<SearchHistory>, selected: Option<string>): (v: View)
    ensures v.EmptyState? <==> h == []
    ensures v.Listing? ==> v.count == CountLabel(|h|) && |v.entries| == |h|
    ensures v.Listing? ==> forall i :: 0 <= i < |h| ==> v.entries[i] == EntryFor(h[i], selected)
  {
    if h == [] then EmptyState
    else Listing(CountLabel(|h|), seq(|h|, i requires 0 <= i < |h| => EntryFor(h[i], selected)))
  }

  predicate DistinctIds(h: seq<SearchHistory>)
  {
    forall i, j :: 0 <= i < j < |h| ==> h[i].id != h[j].id
  }

  /** With distinct ids, at most one entry is expanded, and it is the selected one. */
  lemma AtMostOneExpanded(h: seq<SearchHistory>, selected: Option<string>, i: nat, j: nat)
    requires DistinctIds(h)
    requires i < |h| && j < |h|
    requires Render(h, selected).entries[i].details.Some?
    requires Render(h, selected).entries[j].details.Some?
    ensures i == j && selected == Some(h[i].id)
  {
  }

  /** Clicking an entry that is not open leaves exactly that entry expanded. */
  lemma ClickExpandsOnlyIt(h: seq<SearchHistory>, selected: Option<string>, k: nat)
    requires DistinctIds(h) && k < |h| && selected != Some(h[k].id)
    ensures forall i :: 0 <= i < |h| ==>
      (Render(h, NextSelection(selected, h[k].id)).entries[i].details.Some? <==> i == k)
  {
  }
}
