/**
 * The progress panel of src/components/LeadProgress.tsx: the elapsed-time
 * counter, the two time formats, the header title, which controls are shown
 * and the last ten leads.
 */
module LeadProgress {
  import opened Wrappers
  import opened Text
  import opened LeadTypes
  import LeadGeneration

  /** `n.toString().padStart(2, '0')`. */
  function Pad2(n: nat): (s: string)
    ensures AllDigits(s)
    ensures n < 100 <==> |s| == 2
  {
    NatToStringLength(n);
    PadStart(NatToString(n), 2, '0')
  }

  /** The padded digits read back as the number. */
  lemma Pad2ReadsBack(n: nat)
    ensures DigitsValue(Pad2(n)) == n
  {
    PaddedNatValue(n, 2);
  }

  /**
   * `Math.floor(seconds / 60)` and `seconds % 60`, computed by counting whole
   * minutes; `MinSecIsDivMod` proves it is the floor division and remainder.
   */
  function MinSec(seconds: nat): (r: (nat, nat))
    ensures r.1 < 60 && r.0 * 60 + r.1 == seconds
    ensures r.0 < 100 <==> seconds < 6000
    decreases seconds
  {
    if seconds < 60 then (0, seconds)
    else var (a, b) := MinSec(seconds - 60); (a + 1, b)
  }

  lemma MinSecIsDivMod(seconds: nat)
    ensures MinSec(seconds) == (seconds / 60, seconds % 60)
  {
    var (a, b) := MinSec(seconds);
    DivModUnique(seconds, a, b);
  }

  lemma DivModUnique(seconds: nat, a: nat, b: nat)
    requires b < 60 && a * 60 + b == seconds
    ensures a == seconds / 60 && b == seconds % 60
  {
  }

  /** `formatTime`: minutes and seconds, each padded to two digits, around a colon. */
  function FormatTime(seconds: nat): (t: string)
    ensures |t| >= 5 && t[|t| - 3] == ':'
    ensures |t| == 5 <==> seconds < 6000
  {
    var (a, b) := MinSec(seconds);
    var m, s := Pad2(a), Pad2(b);
    ColonParts(m, s);
    m + ":" + s
  }

  /**
   * The clock text reads back as the number of seconds: the part before the
   * colon counts minutes, the two digits after it are below 60.
   */
  lemma FormatTimeReadsBack(seconds: nat)
    ensures var t := FormatTime(seconds); var mins := t[..|t| - 3]; var secs := t[|t| - 2..];
      AllDigits(mins) && AllDigits(secs) && |secs| == 2 &&
      DigitsValue(secs) < 60 && DigitsValue(mins) * 60 + DigitsValue(secs) == seconds
  {
    var (a, b) := MinSec(seconds);
    Pad2ReadsBack(a);
    Pad2ReadsBack(b);
    DigitsAroundColon(Pad2(a), Pad2(b), a, b);
  }

  lemma ColonParts(m: string, s: string)
    requires |s| == 2
    ensures var t := m + ":" + s; |t| == |m| + 3 && t[|t| - 3] == ':'
    ensures var t := m + ":" + s; t[..|t| - 3] == m && t[|t| - 2..] == s
  {
  }

  /** Stated over any two digit strings, so that the number rendering stays out of the proof. */
  lemma DigitsAroundColon(m: string, s: string, a: nat, b: nat)
    requires AllDigits(m) && AllDigits(s) && |s| == 2 && DigitsValue(m) == a && DigitsValue(s) == b
    ensures var t := m + ":" + s; var mm := t[..|t| - 3]; var ss := t[|t| - 2..];
      AllDigits(mm) && AllDigits(ss) && |ss| == 2 && DigitsValue(mm) == a && DigitsValue(ss) == b
  {
    ColonParts(m, s);
  }

  /** `formatEstimatedTime`: "<s>s" under a minute, otherwise "<m>m <s>s", without padding. */
  function FormatEstimatedTime(seconds: nat): (t: string)
    ensures |t| >= 2 && t[|t| - 1] == 's'
    ensures seconds < 60 ==> 'm' !in t
  {
    if seconds < 60 then NatToString(seconds) + "s"
    else NatToString(seconds / 60) + "m " + NatToString(seconds % 60) + "s"
  }

  /** The estimate text reads back as the number of seconds. */
  lemma EstimatedTimeReadsBack(seconds: nat)
    ensures var t := FormatEstimatedTime(seconds);
      seconds < 60 ==> AllDigits(t[..|t| - 1]) && DigitsValue(t[..|t| - 1]) == seconds
    ensures var t := FormatEstimatedTime(seconds);
      seconds >= 60 ==> (
        && 'm' in t
        && var i := IndexOf(t, 'm');
        && i + 2 <= |t| - 1 && AllDigits(t[..i]) && AllDigits(t[i + 2..|t| - 1])
        && DigitsValue(t[i + 2..|t| - 1]) < 60
        && DigitsValue(t[..i]) * 60 + DigitsValue(t[i + 2..|t| - 1]) == seconds)
  {
    var t := FormatEstimatedTime(seconds);
    if seconds < 60 {
      assert t[..|t| - 1] == NatToString(seconds);
      NatToStringRoundTrip(seconds);
    } else {
      var m := NatToString(seconds / 60);
      var s := NatToString(seconds % 60);
      assert t == m + ['m'] + (" " + s + "s");
      forall j | 0 <= j < |m| ensures m[j] != 'm' {
        assert IsDigit(m[j]);
      }
      IndexOfIs(t, 'm', |m|);
      assert t[..|m|] == m;
      assert t[|m| + 2..|t| - 1] == s;
      NatToStringRoundTrip(seconds / 60);
      NatToStringRoundTrip(seconds % 60);
    }
  }

  /** The header title; 'idle' has none. */
  function Title(status: Status): (r: Option<string>)
    ensures r.None? <==> status == Idle
  {
    match status
    case Generating => Some("Gerando Leads...")
    case Completed => Some("Geração Concluída!")
    case Error => Some("Erro na Geração")
    case Idle => None
  }

  /** Different statuses never share a title. */
  lemma TitlesDiffer(a: Status, b: Status)
    requires Title(a).Some? && Title(a) == Title(b)
    ensures a == b
  {
  }

  /** The controls shown for a progress record and the panel's own "show leads" flag. */
  datatype Controls = Controls(
    stop: bool,          // the stop button
    remaining: bool,     // the remaining-time card
    downloadLast30: bool,
    downloadAll: bool,
    leadList: bool)

  function ControlsFor(p: LeadGenerationProgress, showLeads: bool): (c: Controls)
    ensures c.stop <==> p.status == Generating
    ensures c.remaining <==> p.status == Generating
    ensures c.downloadLast30 <==> |p.leads| > 0
    ensures c.downloadAll <==> |p.leads| > 0 && p.status == Completed
    ensures c.leadList <==> |p.leads| > 0 && showLeads
  {
    Controls(p.status == Generating, p.status == Generating, |p.leads| > 0,
             |p.leads| > 0 && p.status == Completed, |p.leads| > 0 && showLeads)
  }

  /**
   * The controls over a run with a positive quantity: before the last batch
   * the stop button and the estimate show and "download all" does not; from
   * the last batch on it is the reverse. "Download last 30" shows as soon as
   * one batch has arrived.
   */
  lemma ControlsDuringRun(pg: LeadGeneration.Page, f: LeadFilters, inputs: seq<LeadGeneration.TickInput>, showLeads: bool)
    requires f.quantity > 0 && |inputs| <= LeadGeneration.LastBatch(f.quantity)
    ensures var c := ControlsFor(LeadGeneration.Run(pg, f, inputs).progress, showLeads);
      var k := |inputs|;
      && (k < LeadGeneration.LastBatch(f.quantity) ==> c.stop && c.remaining && !c.downloadAll)
      && (k == LeadGeneration.LastBatch(f.quantity) ==> !c.stop && !c.remaining && c.downloadAll)
      && (c.downloadLast30 <==> k > 0)
  {
    LeadGeneration.RunProgress(pg, f, inputs);
  }

  /** `progress.leads.slice(-10)`: at most ten leads, the latest ones, in order. */
  function VisibleLeads(p: LeadGenerationProgress): (r: seq<Lead>)
    ensures |r| == if |p.leads| < 10 then |p.leads| else 10
    ensures r == p.leads[|p.leads| - |r|..]
  {
    SliceLast(p.leads, 10)
  }

  /**
   * During a run the list shows the most recent leads by number: with N
   * leads so far, the j-th visible one is lead number N - |visible| + j + 1
   * ("Lead <number>", with the run's city and country).
   */
  lemma VisibleLeadsOfRun(pg: LeadGeneration.Page, f: LeadFilters, inputs: seq<LeadGeneration.TickInput>)
    requires |inputs| <= LeadGeneration.LastBatch(f.quantity)
    ensures var p := LeadGeneration.Run(pg, f, inputs).progress; var v := VisibleLeads(p);
      forall j :: 0 <= j < |v| ==> LeadGeneration.NumberedLead(v[j], |p.leads| - |v| + j + 1, f)
  {
    LeadGeneration.RunLeadsNumbered(pg, f, inputs);
    VisibleNumberedLeads(LeadGeneration.Run(pg, f, inputs).progress.leads, f);
  }

  lemma VisibleNumberedLeads(leads: seq<Lead>, f: LeadFilters)
    requires LeadGeneration.NumberedLeads(leads, f)
    ensures var v := SliceLast(leads, 10);
      forall j :: 0 <= j < |v| ==> LeadGeneration.NumberedLead(v[j], |leads| - |v| + j + 1, f)
  {
    var v := SliceLast(leads, 10);
    var d := |leads| - |v|;
    forall j | 0 <= j < |v| ensures LeadGeneration.NumberedLead(v[j], d + j + 1, f) {
      assert v[j] == leads[d + j];
    }
  }

  /** The panel's own state: seconds counted while generating, and whether the list is open. */
  class ProgressPanel {
    var timeElapsed: nat
    var showLeads: bool

    constructor ()
      ensures timeElapsed == 0 && showLeads
    {
      timeElapsed := 0;
      showLeads := true;
    }

    /** One second passes; the one-second interval exists only while the status is 'generating'. */
    method SecondPassed(status: Status)
      modifies this
      ensures timeElapsed == old(timeElapsed) + (if status == Generating then 1 else 0)
      ensures showLeads == old(showLeads)
    {
      if status == Generating {
        timeElapsed := timeElapsed + 1;
      }
    }

    /** The "Ocultar" / "Mostrar" button. */
    method ToggleLeads()
      modifies this
      ensures showLeads == !old(showLeads) && timeElapsed == old(timeElapsed)
    {
      showLeads := !showLeads;
    }
  }
}
