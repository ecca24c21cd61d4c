/** The ESG & Sustainability page (src/pages/Sustainability.tsx): the report-type
    selector and its heading, and the two independent busy flags behind the
    Generate and Share buttons (`isGenerating`, `isSharing`). */
module Sustainability {
  import opened Common

  datatype ReportType = Esg | Carbon | Compliance | Impact

  /** One entry of `reportTypes`: its id and the label shown. */
  datatype ReportTypeEntry = ReportTypeEntry(id: ReportType, caption: string)

  /** `reportTypes` (lines 11-16). */
  const ReportTypes: seq<ReportTypeEntry> := [
    ReportTypeEntry(Esg, "ESG Overview"),
    ReportTypeEntry(Carbon, "Carbon Footprint"),
    ReportTypeEntry(Compliance, "Compliance"),
    ReportTypeEntry(Impact, "Social Impact")
  ]

  /** `types.find(t => t.id === id)`. */
  function FindType(types: seq<ReportTypeEntry>, id: ReportType): (r: Option<ReportTypeEntry>)
    ensures r.None? <==> forall i :: 0 <= i < |types| ==> types[i].id != id
    ensures r.Some? ==> r.value.id == id && r.value in types
    ensures r.Some? ==> exists i :: 0 <= i < |types| && types[i] == r.value &&
                                    forall j :: 0 <= j < i ==> types[j].id != id
  {
    if types == [] then None
    else if types[0].id == id then Some(types[0])
    else
      var rest := FindType(types[1..], id);
      assert rest.Some? ==> exists i :: 0 <= i < |types| && types[i] == rest.value &&
                                        forall j :: 0 <= j < i ==> types[j].id != id by {
        if rest.Some? {
          var k :| 0 <= k < |types[1..]| && types[1..][k] == rest.value &&
                   forall j :: 0 <= j < k ==> types[1..][j].id != id;
          assert types[k + 1] == rest.value;
        }
      }
      rest
  }

  /** The four ids are distinct, so each selection names exactly one entry. */
  lemma ReportTypeIdsDistinct()
    ensures forall i, j :: 0 <= i < j < |ReportTypes| ==> ReportTypes[i].id != ReportTypes[j].id
  {
  }

  const HeadingSuffix: string := " Report"

  /** The report heading (line 281): the caption of the entry whose id is the
      selection, followed by " Report"; every selection has such an entry. */
  function ReportHeading(selected: ReportType): (heading: string)
    ensures exists i :: 0 <= i < |ReportTypes| && ReportTypes[i].id == selected &&
                        heading == ReportTypes[i].caption + HeadingSuffix
  {
    match FindType(ReportTypes, selected)
    case Some(t) => t.caption + HeadingSuffix
    case None => assert false; ""
  }

  /** Different selections show different headings. */
  lemma ReportHeadingInjective(a: ReportType, b: ReportType)
    requires a != b
    ensures ReportHeading(a) != ReportHeading(b)
  {
    ReportTypeIdsDistinct();
    CaptionsDistinct();
    var ha, hb := ReportHeading(a), ReportHeading(b);
    var i :| 0 <= i < |ReportTypes| && ReportTypes[i].id == a && ha == ReportTypes[i].caption + HeadingSuffix;
    var j :| 0 <= j < |ReportTypes| && ReportTypes[j].id == b && hb == ReportTypes[j].caption + HeadingSuffix;
    assert i != j;
    assert ha[..|ha| - |HeadingSuffix|] == ReportTypes[i].caption;
    assert hb[..|hb| - |HeadingSuffix|] == ReportTypes[j].caption;
  }

  /** The four captions differ pairwise (first or second character). */
  lemma CaptionsDistinct()
    ensures forall i, j :: 0 <= i < j < |ReportTypes| ==> ReportTypes[i].caption != ReportTypes[j].caption
  {
    assert ReportTypes[0].caption[0] == 'E' && ReportTypes[1].caption[0] == 'C';
    assert ReportTypes[2].caption[0] == 'C' && ReportTypes[3].caption[0] == 'S';
    assert ReportTypes[1].caption[1] == 'a' && ReportTypes[2].caption[1] == 'o';
  }

  /** How a button is shown: disabled or not, and its text. */
  datatype ButtonView = ButtonView(disabled: bool, text: string)

  /** The Generate button (lines 293-295): disabled exactly while generating. */
  function GenerateButton(isGenerating: bool): (b: ButtonView)
    ensures b.disabled <==> isGenerating
    ensures b.text == (if isGenerating then "Generating..." else "Generate Report")
  {
    ButtonView(isGenerating, if isGenerating then "Generating..." else "Generate Report")
  }

  /** The Share button (lines 297-299): disabled exactly while sharing. */
  function ShareButton(isSharing: bool): (b: ButtonView)
    ensures b.disabled <==> isSharing
    ensures b.text == (if isSharing then "Creating Card..." else "Share Report")
  {
    ButtonView(isSharing, if isSharing then "Creating Card..." else "Share Report")
  }

  /** The page state: the selected report type and the two busy flags. */
  class SustainabilityPage {
    var selectedReport: ReportType
    var isGenerating: bool
    var isSharing: bool

    /** Initial state (lines 7-9). */
    constructor ()
      ensures selectedReport == Esg && !isGenerating && !isSharing
    {
      selectedReport := Esg;
      isGenerating := false;
      isSharing := false;
    }

    /** A report-type button (line 262). */
    method SelectReport(t: ReportType)
      modifies this`selectedReport
      ensures selectedReport == t
    {
      selectedReport := t;
    }

    /** `generateReport` up to its `await` (line 19). */
    method BeginGenerate()
      modifies this`isGenerating
      ensures isGenerating
    {
      isGenerating := true;
    }

    /** `generateReport` after the service call resolved (lines 23-29): a rejection
        is caught and logged, and `finally` clears the flag either way. */
    method FinishGenerate(service: Outcome) returns (errorLogged: bool)
      modifies this`isGenerating
      ensures !isGenerating
      ensures errorLogged <==> service == Failed
    {
      errorLogged := service == Failed;
      isGenerating := false;
    }

    /** `shareReport` up to its `await` (line 33). */
    method BeginShare()
      modifies this`isSharing
      ensures isSharing
    {
      isSharing := true;
    }

    /** `shareReport` after the service call resolved (lines 37-42). */
    method FinishShare(service: Outcome) returns (errorLogged: bool)
      modifies this`isSharing
      ensures !isSharing
      ensures errorLogged <==> service == Failed
    {
      errorLogged := service == Failed;
      isSharing := false;
    }

    /** One whole `generateReport` run: busy while `generateESGReport` runs, idle
        afterwards, whether it resolved or was rejected. */
    method GenerateReport(service: Outcome) returns (busyDuringCall: bool, errorLogged: bool)
      modifies this`isGenerating
      ensures busyDuringCall && !isGenerating
      ensures errorLogged <==> service == Failed
    {
      BeginGenerate();
      busyDuringCall := isGenerating;
      errorLogged := FinishGenerate(service);
    }

    /** One whole `shareReport` run around `createESGSummaryCard`. */
    method ShareReport(service: Outcome) returns (busyDuringCall: bool, errorLogged: bool)
      modifies this`isSharing
      ensures busyDuringCall && !isSharing
      ensures errorLogged <==> service == Failed
    {
      BeginShare();
      busyDuringCall := isSharing;
      errorLogged := FinishShare(service);
    }

    /** A click on Generate starts a run only when the button is enabled. */
    method ClickGenerate() returns (started: bool)
      modifies this`isGenerating
      ensures started <==> !GenerateButton(old(isGenerating)).disabled
      ensures isGenerating
    {
      started := !GenerateButton(isGenerating).disabled;
      if started {
        BeginGenerate();
      }
    }

    /** A click on Share starts a run only when the button is enabled. */
    method ClickShare() returns (started: bool)
      modifies this`isSharing
      ensures started <==> !ShareButton(old(isSharing)).disabled
      ensures isSharing
    {
      started := !ShareButton(isSharing).disabled;
      if started {
        BeginShare();
      }
    }
  }

  /** The two flags are independent: neither handler touches the other's flag, so
      generating and sharing can be in progress at the same time, and one finishing
      leaves the other busy. */
  method GenerateAndShareOverlap(generated: Outcome)
    returns (bothBusy: bool, sharingAfterGenerateDone: bool, generatingAfterGenerateDone: bool)
    ensures bothBusy
    ensures sharingAfterGenerateDone && !generatingAfterGenerateDone
  {
    var page := new SustainabilityPage();
    var g := page.ClickGenerate();
    var s := page.ClickShare();
    bothBusy := page.isGenerating && page.isSharing;
    var _ := page.FinishGenerate(generated);
    sharingAfterGenerateDone := page.isSharing;
    generatingAfterGenerateDone := page.isGenerating;
  }
}
