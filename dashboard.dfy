/** The browser side of the dashboard (static/js/main.js): the plot
    descriptions handed to the charting library, the markup written into the
    page, and the dashboard state that a click on the volcano plot changes.
    Fetching, the charting library itself and the page are not modelled: a
    figure is a plain value, a panel's content is a value, and every server
    answer arrives as an `Api` value. */
module Dashboard {
  import opened Seqs
  import opened Text
  import opened Api

  // ---------------------------------------------------------------------
  // Volcano plot: two scatter traces and three threshold lines
  // ---------------------------------------------------------------------

  /** A JavaScript number as `Math.min` / `Math.max` can return it: with no
      arguments they return positive and negative infinity. */
  datatype Extended = NegInfinity | Finite(value: real) | PosInfinity

  /** `e <= x` on the extended line. */
  predicate AtMost(e: Extended, x: real) {
    e.NegInfinity? || (e.Finite? && e.value <= x)
  }

  /** `e >= x` on the extended line. */
  predicate AtLeast(e: Extended, x: real) {
    e.PosInfinity? || (e.Finite? && e.value >= x)
  }

  /** `Math.min(...xs)`. */
  function Minimum(xs: seq<real>): (m: Extended)
    ensures m == PosInfinity <==> xs == []
    ensures m != NegInfinity
    ensures m.Finite? ==> m.value in xs && forall x :: x in xs ==> m.value <= x
  {
    if xs == [] then PosInfinity
    else
      assert forall x :: x in xs ==> x == xs[0] || x in xs[1..];
      var rest := Minimum(xs[1..]);
      if rest.Finite? && rest.value < xs[0] then rest else Finite(xs[0])
  }

  /** `Math.max(...xs)`. */
  function Maximum(xs: seq<real>): (m: Extended)
    ensures m == NegInfinity <==> xs == []
    ensures m != PosInfinity
    ensures m.Finite? ==> m.value in xs && forall x :: x in xs ==> m.value >= x
  {
    if xs == [] then NegInfinity
    else
      assert forall x :: x in xs ==> x == xs[0] || x in xs[1..];
      var rest := Maximum(xs[1..]);
      if rest.Finite? && rest.value > xs[0] then rest else Finite(xs[0])
  }

  /** A scatter trace: index `i` of `x`, `y` and `text` describe one marker. */
  datatype ScatterTrace = ScatterTrace(name: string, x: seq<real>, y: seq<real>, text: seq<string>)

  /** A line shape from (x0, y0) to (x1, y1). */
  datatype Line = Line(x0: Extended, x1: Extended, y0: Extended, y1: Extended)

  /** What `Plotly.newPlot('volcano-plot', ...)` receives, without styling. */
  datatype VolcanoFigure = VolcanoFigure(traces: seq<ScatterTrace>, shapes: seq<Line>)

  function IsSignificant(p: VolcanoPoint): bool { p.significant }
  function IsNotSignificant(p: VolcanoPoint): bool { !p.significant }
  function LogFC(p: VolcanoPoint): real { p.logFC }
  function NegLog10PVal(p: VolcanoPoint): real { p.negLog10PVal }
  function GeneSymbol(p: VolcanoPoint): string { p.geneSymbol }

  /** `points.filter(p => p.significant)` or `points.filter(p => !p.significant)`. */
  function TracePoints(points: seq<VolcanoPoint>, significant: bool): seq<VolcanoPoint> {
    if significant then Filter(points, IsSignificant) else Filter(points, IsNotSignificant)
  }

  /** Trace `t` shows exactly `pts`: one marker per point, in order, with
      x, y and text taken from the same point. */
  ghost predicate Shows(t: ScatterTrace, pts: seq<VolcanoPoint>) {
    |t.x| == |pts| && |t.y| == |pts| && |t.text| == |pts| &&
    forall i :: 0 <= i < |pts| ==>
      t.x[i] == pts[i].logFC && t.y[i] == pts[i].negLog10PVal && t.text[i] == pts[i].geneSymbol
  }

  function ScatterOf(name: string, pts: seq<VolcanoPoint>): (t: ScatterTrace)
    ensures t.name == name && Shows(t, pts)
  {
    ScatterTrace(name, Map(LogFC, pts), Map(NegLog10PVal, pts), Map(GeneSymbol, pts))
  }

  /** The two traces of `createVolcanoPlot`: the non-significant points first,
      the significant ones second. */
  function VolcanoTraces(points: seq<VolcanoPoint>): (traces: seq<ScatterTrace>)
    ensures |traces| == 2
    ensures traces[0].name == "Not Significant" && Shows(traces[0], TracePoints(points, false))
    ensures traces[1].name == "Significant" && Shows(traces[1], TracePoints(points, true))
  {
    [ScatterOf("Not Significant", TracePoints(points, false)),
     ScatterOf("Significant", TracePoints(points, true))]
  }

  /** Every point lands in exactly one trace, the one its flag chooses, and
      each trace keeps the input order. */
  lemma TracePointsPartition(points: seq<VolcanoPoint>, more: seq<VolcanoPoint>)
    ensures forall s: bool, p :: p in TracePoints(points, s) ==> p in points && p.significant == s
    ensures multiset(TracePoints(points, false)) + multiset(TracePoints(points, true)) == multiset(points)
    ensures |TracePoints(points, false)| + |TracePoints(points, true)| == |points|
    ensures forall s: bool :: TracePoints(points + more, s) == TracePoints(points, s) + TracePoints(more, s)
  {
    FilterPartition(points, IsNotSignificant, IsSignificant);
    FilterConcat(points, more, IsSignificant);
    FilterConcat(points, more, IsNotSignificant);
  }

  /** The pieces of a marker click: the marker's coordinates and its text. */
  datatype ClickedPoint = ClickedPoint(x: real, y: real, text: string)

  /** The click event data of marker `i` of a trace. */
  function MarkerAt(t: ScatterTrace, i: nat): ClickedPoint
    requires i < |t.x| && i < |t.y| && i < |t.text|
  {
    ClickedPoint(t.x[i], t.y[i], t.text[i])
  }

  /** A click on any marker of the volcano figure reports one input point
      whole: its fold change, its significance value and its symbol, and
      the trace it sits in matches its flag. */
  lemma MarkerIsInputPoint(points: seq<VolcanoPoint>, t: nat, i: nat)
    requires t < 2 && i < |VolcanoTraces(points)[t].x|
    ensures var trace := VolcanoTraces(points)[t];
            i < |trace.y| && i < |trace.text| &&
            exists p :: p in points && p.significant == (t == 1) &&
                        MarkerAt(trace, i) == ClickedPoint(p.logFC, p.negLog10PVal, p.geneSymbol)
  {
    TracePointsPartition(points, []);
    var p := TracePoints(points, t == 1)[i];
    assert p in TracePoints(points, t == 1);
  }

  /** `-Math.log10(0.05)` is computed by the same `negLog10` the points were
      made with; the model does not evaluate it. */
  function VolcanoShapes(points: seq<VolcanoPoint>, negLog10: real -> real): seq<Line> {
    var xs, ys := Map(LogFC, points), Map(NegLog10PVal, points);
    [Line(Minimum(xs), Maximum(xs), Finite(negLog10(0.05)), Finite(negLog10(0.05))),
     Line(Finite(1.0), Finite(1.0), Finite(0.0), Maximum(ys)),
     Line(Finite(-1.0), Finite(-1.0), Finite(0.0), Maximum(ys))]
  }

  /** The threshold lines: a horizontal line at the p-value cutoff spanning
      exactly the fold changes of all points, whatever their flags, and two
      vertical lines at fold change 1 and -1 rising from 0 to the largest
      significance value. With no points the spans are the infinities that
      `Math.min()` and `Math.max()` give. */
  lemma ThresholdLines(points: seq<VolcanoPoint>, negLog10: real -> real)
    ensures var shapes := VolcanoShapes(points, negLog10);
            |shapes| == 3 &&
            shapes[0].y0 == shapes[0].y1 == Finite(negLog10(0.05)) &&
            shapes[1].x0 == shapes[1].x1 == Finite(1.0) &&
            shapes[2].x0 == shapes[2].x1 == Finite(-1.0) &&
            shapes[1].y0 == shapes[2].y0 == Finite(0.0) && shapes[1].y1 == shapes[2].y1
    ensures var shapes := VolcanoShapes(points, negLog10);
            forall p :: p in points ==>
              AtMost(shapes[0].x0, p.logFC) && AtLeast(shapes[0].x1, p.logFC) &&
              AtLeast(shapes[1].y1, p.negLog10PVal)
    ensures var shapes := VolcanoShapes(points, negLog10);
            points != [] ==>
              (exists p :: p in points && shapes[0].x0 == Finite(p.logFC)) &&
              (exists p :: p in points && shapes[0].x1 == Finite(p.logFC)) &&
              (exists p :: p in points && shapes[1].y1 == Finite(p.negLog10PVal))
    ensures var shapes := VolcanoShapes(points, negLog10);
            points == [] ==>
              shapes[0].x0 == PosInfinity && shapes[0].x1 == NegInfinity && shapes[1].y1 == NegInfinity
  {
    var xs, ys := Map(LogFC, points), Map(NegLog10PVal, points);
    forall p | p in points
      ensures LogFC(p) in xs && NegLog10PVal(p) in ys
    {
      var i :| 0 <= i < |points| && points[i] == p;
      assert xs[i] == LogFC(p) && ys[i] == NegLog10PVal(p);
    }
    if points != [] {
      WitnessIn(points, xs, Minimum(xs).value, LogFC);
      WitnessIn(points, xs, Maximum(xs).value, LogFC);
      WitnessIn(points, ys, Maximum(ys).value, NegLog10PVal);
    }
  }

  lemma WitnessIn(points: seq<VolcanoPoint>, xs: seq<real>, v: real, f: VolcanoPoint -> real)
    requires xs == Map(f, points) && v in xs
    ensures exists p :: p in points && f(p) == v
  {
  }

  /** `createVolcanoPlot`'s figure. */
  function CreateVolcanoPlot(points: seq<VolcanoPoint>, negLog10: real -> real): VolcanoFigure {
    VolcanoFigure(VolcanoTraces(points), VolcanoShapes(points, negLog10))
  }

  // ---------------------------------------------------------------------
  // Boxplot panel
  // ---------------------------------------------------------------------

  /** A box trace: `x` holds the group label once per value of `y`. */
  datatype BoxTrace = BoxTrace(name: string, x: seq<string>, y: seq<real>)

  /** What `Plotly.newPlot('boxplot', ...)` receives, without styling. */
  datatype BoxplotFigure = BoxplotFigure(title: string, traces: seq<BoxTrace>)

  /** The content of the `boxplot` element. */
  datatype BoxplotPanel =
    | BoxplotBlank
    | BoxplotMarkup(html: string)
    | BoxplotChart(figure: BoxplotFigure)

  /** `Array(values.length).fill(name)` beside the values. */
  function BoxTraceOf(name: string, values: seq<real>): BoxTrace {
    BoxTrace(name, seq(|values|, _ => name), values)
  }

  /** `createBoxplot`'s figure. */
  function CreateBoxplot(geneSymbol: string, young: seq<real>, older: seq<real>): (fig: BoxplotFigure)
    ensures fig.title == "Protein Expression: " + geneSymbol
    ensures |fig.traces| == 2
    ensures fig.traces[0].name == "Young" && fig.traces[0].y == young
    ensures fig.traces[1].name == "Old" && fig.traces[1].y == older
    ensures forall t :: 0 <= t < 2 ==>
              |fig.traces[t].x| == |fig.traces[t].y| &&
              forall i :: 0 <= i < |fig.traces[t].x| ==> fig.traces[t].x[i] == fig.traces[t].name
  {
    BoxplotFigure("Protein Expression: " + geneSymbol, [BoxTraceOf("Young", young), BoxTraceOf("Old", older)])
  }

  function ErrorParagraph(message: string): string {
    "<p class=\"error\">" + message + "</p>"
  }

  /** The boxplot element after `loadBoxplot` has handled `resp`. A non-empty
      `error` replaces the content with the message. An empty `error` is
      falsy, so `createBoxplot` runs on a body without `young` and throws;
      the exception is logged and the content stays as it was. */
  function BoxplotPanelAfter(shown: BoxplotPanel, resp: BoxplotResponse): (next: BoxplotPanel)
    ensures resp.BoxplotError? && resp.error == "" ==> next == shown
    ensures resp.BoxplotError? && resp.error != "" ==>
              next == BoxplotMarkup(ErrorParagraph(resp.error)) && Contains(next.html, resp.error)
    ensures resp.Boxplot? ==>
              next.BoxplotChart? && |next.figure.traces| == 2 &&
              next.figure.title == "Protein Expression: " + resp.geneSymbol &&
              next.figure.traces[0].y == resp.youngGroup.values &&
              next.figure.traces[1].y == resp.oldGroup.values
  {
    match resp
    case BoxplotError(message) =>
      if message != "" then
        ErrorParagraphContains(message);
        BoxplotMarkup(ErrorParagraph(message))
      else shown
    case Boxplot(geneSymbol, youngGroup, oldGroup) =>
      BoxplotChart(CreateBoxplot(geneSymbol, youngGroup.values, oldGroup.values))
  }

  lemma ErrorParagraphContains(message: string)
    ensures Contains(ErrorParagraph(message), message)
  {
    ContainsInfix("<p class=\"error\">", message, "</p>");
  }

  // ---------------------------------------------------------------------
  // Gene-info panel
  // ---------------------------------------------------------------------

  /** The text of a link template around a publication's URL and title. */
  datatype ItemTemplate = ItemTemplate(open: string, middle: string, close: string)

  /** `n` spaces. */
  function Indent(n: nat): string {
    seq(n, _ => ' ')
  }

  /** The `<li>` template of `loadGeneInfo`: its lines are indented by 20,
      24, 28, 24 and 20 spaces, and it ends with the 16 spaces before the
      closing backquote of the template literal. */
  const PublicationItem: ItemTemplate := ItemTemplate(
    "\n" + Indent(20) + "<li>\n" + Indent(24) + "<a href=\"",
    "\" " + NewContextAttributes + (">\n" + Indent(28)),
    "\n" + Indent(24) + "</a>\n" + Indent(20) + "</li>\n" + Indent(16))

  const NewContextAttributes: string := "target=\"_blank\" rel=\"noopener noreferrer\""

  const PublicationsOpen: string := "<h4>Related Publications:</h4><ul>"
  const PublicationsClose: string := "</ul>"
  const NoPublications: string := "<p>No publications found for this gene.</p>"

  function Heading(geneSymbol: string): string {
    "<h3>" + geneSymbol + "</h3>"
  }

  /** One publication link made from template `t`. */
  function Link(t: ItemTemplate, pub: Publication): string {
    t.open + pub.url + t.middle + pub.title + t.close
  }

  function LinkOf(t: ItemTemplate): Publication -> string {
    pub => Link(t, pub)
  }

  /** Every link of `loadGeneInfo` carries the attributes that open it in a
      new browsing context that gets no handle on this page. */
  lemma LinkOpensNewContext(pub: Publication)
    ensures Contains(Link(PublicationItem, pub), NewContextAttributes)
  {
    var t := PublicationItem;
    assert Link(t, pub) == (t.open + pub.url) + t.middle + (pub.title + t.close);
    ContainsNestedInfix(t.open + pub.url, "\" ", NewContextAttributes, ">\n" + Indent(28), pub.title + t.close);
  }

  /** The links of `loadGeneInfo`, each opened in a new browsing context that
      gets no handle on this page. */
  function ListItems(pubs: seq<Publication>): string {
    FlatMap(LinkOf(PublicationItem), pubs)
  }

  /** The gene-info markup: the heading, then exactly one of the error
      message, the publication list, or the "no publications" message. */
  function GeneInfoHtml(geneSymbol: string, resp: GeneInfoResponse): string {
    Heading(geneSymbol) +
    match resp
    case GeneInfoError(message) =>
      // an empty `error` is falsy, and such a body has no `publications`
      if message != "" then ErrorParagraph(message) else NoPublications
    case GeneInfoFound(_, _, pubs) =>
      if |pubs| > 0 then PublicationsOpen + ListItems(pubs) + PublicationsClose else NoPublications
  }

  /** The three outcomes of the gene-info markup: it always opens with the
      heading; a non-empty error wins; a non-empty publication list gives
      the list; anything else gives the "no publications" message. */
  lemma GeneInfoOutcomes(geneSymbol: string, resp: GeneInfoResponse)
    ensures StartsWith(GeneInfoHtml(geneSymbol, resp), "<h3>" + geneSymbol + "</h3>")
    ensures resp.GeneInfoError? && resp.error != "" ==>
              GeneInfoHtml(geneSymbol, resp) == Heading(geneSymbol) + ErrorParagraph(resp.error)
    ensures resp.GeneInfoFound? && resp.publications != [] ==>
              GeneInfoHtml(geneSymbol, resp) ==
              Heading(geneSymbol) + PublicationsOpen + ListItems(resp.publications) + PublicationsClose
    ensures (resp.GeneInfoError? && resp.error == "") || (resp.GeneInfoFound? && resp.publications == []) ==>
              GeneInfoHtml(geneSymbol, resp) == Heading(geneSymbol) + NoPublications
  {
  }

  /** A `forEach` whose callback appends `f` of each element to the
      markup, in order. */
  method AppendEach<T>(html: string, xs: seq<T>, f: T -> string) returns (out: string)
    ensures out == html + FlatMap(f, xs)
  {
    out := html;
    for i := 0 to |xs|
      invariant out == html + FlatMap(f, xs[..i])
    {
      FlatMapSnoc(f, xs[..i], xs[i]);
      assert xs[..i + 1] == xs[..i] + [xs[i]];
      out := out + f(xs[i]);
    }
    assert xs[..|xs|] == xs;
  }

  /** `loadGeneInfo`'s markup, accumulated as the source does. */
  method RenderGeneInfo(geneSymbol: string, resp: GeneInfoResponse) returns (html: string)
    ensures html == GeneInfoHtml(geneSymbol, resp)
  {
    html := Heading(geneSymbol);
    if resp.GeneInfoError? && resp.error != "" {
      html := html + ErrorParagraph(resp.error);
    } else if resp.GeneInfoFound? && |resp.publications| > 0 {
      html := html + PublicationsOpen;
      html := AppendEach(html, resp.publications, LinkOf(PublicationItem));
      html := html + PublicationsClose;
    } else {
      html := html + NoPublications;
    }
  }

  /** A publication the list markup can carry unambiguously: no quote in its
      URL (it ends the `href` attribute) and no line break in its title (it
      ends the title line). */
  predicate PlainPublication(pub: Publication) {
    '"' !in pub.url && '\n' !in pub.title
  }

  /** What the parser below relies on: the URL is followed by a quote,
      the title by a line break, and the template ends in something. */
  predicate Delimited(t: ItemTemplate) {
    |t.middle| > 0 && t.middle[0] == '"' && |t.close| > 0 && t.close[0] == '\n'
  }

  /** Reads one link made with template `t` off the front of `html`: the
      URL runs to the first quote, the title to the first line break. */
  function ReadLink(t: ItemTemplate, html: string): (r: Option<(Publication, string)>)
    requires Delimited(t)
    ensures r.Some? ==> |r.value.1| < |html|
  {
    if !StartsWith(html, t.open) then None
    else
      var fromUrl := html[|t.open|..];
      var urlEnd := FirstIndexOf(fromUrl, '"');
      var url, afterUrl := fromUrl[..urlEnd], fromUrl[urlEnd..];
      if !StartsWith(afterUrl, t.middle) then None
      else
        var fromTitle := afterUrl[|t.middle|..];
        var titleEnd := FirstIndexOf(fromTitle, '\n');
        var title, afterTitle := fromTitle[..titleEnd], fromTitle[titleEnd..];
        if !StartsWith(afterTitle, t.close) then None
        else Some((Publication(title, url), afterTitle[|t.close|..]))
  }

  /** Reads the publications back from links made with template `t`. */
  function ParseLinks(t: ItemTemplate, html: string): Option<seq<Publication>>
    requires Delimited(t)
    decreases |html|
  {
    if html == [] then Some([])
    else match ReadLink(t, html)
      case None => None
      case Some((pub, rest)) =>
        match ParseLinks(t, rest)
        case None => None
        case Some(more) => Some([pub] + more)
  }

  /** The `<li>` template of `loadGeneInfo` can be read back. */
  lemma PublicationItemDelimited()
    ensures Delimited(PublicationItem)
  {
  }

  /** Reading one link off the front of the markup gives back the
      publication and the rest. */
  lemma ReadLinkOf(t: ItemTemplate, p: Publication, rest: string)
    requires Delimited(t) && PlainPublication(p)
    ensures ReadLink(t, Link(t, p) + rest) == Some((p, rest))
  {
    var afterTitle := t.close + rest;
    var afterUrl := t.middle + (p.title + afterTitle);
    assert Link(t, p) + rest == t.open + (p.url + afterUrl);
    DropPrefix(t.open, p.url + afterUrl);
    SplitAtFirstOf(p.url, afterUrl, '"');
    DropPrefix(t.middle, p.title + afterTitle);
    SplitAtFirstOf(p.title, afterTitle, '\n');
    DropPrefix(t.close, rest);
  }

  /** Links made with a delimited template hold exactly one link per
      publication, in input order, with that publication's URL and title. */
  lemma {:induction false} LinksRoundTrip(t: ItemTemplate, pubs: seq<Publication>)
    requires Delimited(t)
    requires forall p :: p in pubs ==> PlainPublication(p)
    ensures ParseLinks(t, FlatMap(LinkOf(t), pubs)) == Some(pubs)
  {
    if pubs != [] {
      var rest := FlatMap(LinkOf(t), pubs[1..]);
      assert FlatMap(LinkOf(t), pubs) == Link(t, pubs[0]) + rest;
      LinksRoundTrip(t, pubs[1..]);
      ReadLinkOf(t, pubs[0], rest);
      assert [pubs[0]] + pubs[1..] == pubs;
    }
  }

  /** The list markup of `loadGeneInfo` holds exactly one link per
      publication, in input order, with that publication's URL and title. */
  lemma ListItemsRoundTrip(pubs: seq<Publication>)
    requires forall p :: p in pubs ==> PlainPublication(p)
    ensures ParseLinks(PublicationItem, ListItems(pubs)) == Some(pubs)
  {
    PublicationItemDelimited();
    LinksRoundTrip(PublicationItem, pubs);
  }

  // ---------------------------------------------------------------------
  // Dashboard state
  // ---------------------------------------------------------------------

  /** The `volcano-info` summary of the selected point; the source formats
      the numbers (3 decimals, and 10^-y in exponent notation). */
  datatype InfoSummary = InfoSummary(geneSymbol: string, logFC: real, negLog10PVal: real)

  /** A request the page has issued. */
  datatype Load = LoadBoxplot(geneSymbol: string) | LoadGeneInfo(geneSymbol: string)

  /** The page's state: the global `selectedGene`, the content of its four
      elements, and the requests issued by clicks, in issue order. */
  class Page {
    const negLog10: real -> real
    var volcano: Option<VolcanoFigure>
    var selectedGene: Option<string>
    var summary: Option<InfoSummary>
    var boxplot: BoxplotPanel
    var geneInfo: string
    var issued: seq<Load>

    /** Before any click nothing is selected or requested; after a click the
        two most recent requests are the boxplot and then the gene-info
        request for the selected gene, and the summary names it. */
    ghost predicate Valid()
      reads this
    {
      match selectedGene
      case None => issued == [] && summary == None
      case Some(gene) =>
        |issued| >= 2 && issued[|issued| - 2..] == [LoadBoxplot(gene), LoadGeneInfo(gene)] &&
        summary.Some? && summary.value.geneSymbol == gene
    }

    /** The page as loaded: `selectedGene` is null and every element empty. */
    constructor (negLog10: real -> real)
      ensures Valid()
      ensures this.negLog10 == negLog10
      ensures volcano == None && selectedGene == None && summary == None
      ensures boxplot == BoxplotBlank && geneInfo == "" && issued == []
    {
      this.negLog10 := negLog10;
      volcano := None;
      selectedGene := None;
      summary := None;
      boxplot := BoxplotBlank;
      geneInfo := "";
      issued := [];
    }

    /** `createVolcanoPlot` on the body of `/api/volcano-data`. */
    method ShowVolcano(points: seq<VolcanoPoint>)
      modifies this`volcano
      ensures volcano == Some(CreateVolcanoPlot(points, negLog10))
    {
      volcano := Some(CreateVolcanoPlot(points, negLog10));
    }

    /** The `plotly_click` handler. The gene of the first clicked point
        overwrites any earlier selection, the summary is replaced, and the
        boxplot and gene-info loads are issued, in that order, for that same
        gene. An event without points makes `data.points[0].text` throw before
        anything is assigned. */
    method OnPlotlyClick(clicked: seq<ClickedPoint>)
      requires Valid()
      modifies this`selectedGene, this`summary, this`issued
      ensures Valid()
      ensures clicked == [] ==>
                selectedGene == old(selectedGene) && summary == old(summary) && issued == old(issued)
      ensures clicked != [] ==>
                selectedGene == Some(clicked[0].text) &&
                summary == Some(InfoSummary(clicked[0].text, clicked[0].x, clicked[0].y)) &&
                issued == old(issued) + [LoadBoxplot(clicked[0].text), LoadGeneInfo(clicked[0].text)]
    {
      if clicked != [] {
        var point := clicked[0];
        var geneSymbol := point.text;
        selectedGene := Some(geneSymbol);
        summary := Some(InfoSummary(geneSymbol, point.x, point.y));
        issued := issued + [LoadBoxplot(geneSymbol), LoadGeneInfo(geneSymbol)];
      }
    }

    /** `loadBoxplot` once its response has arrived. */
    method OnBoxplotResponse(resp: BoxplotResponse)
      modifies this`boxplot
      ensures boxplot == BoxplotPanelAfter(old(boxplot), resp)
    {
      match resp
      case BoxplotError(message) =>
        if message != "" {
          boxplot := BoxplotMarkup(ErrorParagraph(message));
        }
      case Boxplot(geneSymbol, youngGroup, oldGroup) =>
        boxplot := BoxplotChart(CreateBoxplot(geneSymbol, youngGroup.values, oldGroup.values));
    }

    /** `loadGeneInfo(geneSymbol)` once its response has arrived. */
    method OnGeneInfoResponse(geneSymbol: string, resp: GeneInfoResponse)
      modifies this`geneInfo
      ensures geneInfo == GeneInfoHtml(geneSymbol, resp)
    {
      geneInfo := RenderGeneInfo(geneSymbol, resp);
    }
  }
}
