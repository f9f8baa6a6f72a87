/** The endpoint logic of the Flask server (app.py): the module-level
    `DATA_CACHE` that loads each spreadsheet at most once, and the
    publication list that `gene_info` builds from two mygene.info answers.
    Routing, JSON encoding and the HTTP requests themselves are not modelled:
    the sheets are fixed when the cache is made, and the upstream answers are
    parameters. */
module App {
  import opened Seqs
  import opened Text
  import opened Api
  import opened DataProcessing

  /** A value stored in `DATA_CACHE`: the prepared volcano points, or the
      loaded values sheet. */
  datatype CachedData =
    | VolcanoEntry(points: seq<VolcanoPoint>)
    | ValuesEntry(table: ValuesTable)

  const VolcanoKey: string := "volcano_data"
  const ValuesKey: string := "values_data"

  /** `DATA_CACHE` together with the two loaders it guards. `limmaSheet` and
      `valuesSheet` are what `load_limma_data` and `load_values_data` read;
      the ghost counters record how often each loader ran. */
  class DataCache {
    const limmaSheet: seq<LimmaRow>
    const valuesSheet: ValuesTable
    const negLog10: real -> real
    var entries: map<string, CachedData>
    ghost var limmaLoads: nat
    ghost var valuesLoads: nat

    /** The volcano points that `prepare_volcano_data` makes of the limma sheet. */
    ghost predicate PreparedVolcano(points: seq<VolcanoPoint>)
      reads this
    {
      |points| == |limmaSheet| &&
      forall i :: 0 <= i < |points| ==> points[i] == PointOf(limmaSheet[i], negLog10)
    }

    /** The cache holds only the two keys, each with what its loader produced,
        and each loader has run exactly once if its key is present and never
        otherwise. */
    ghost predicate Valid()
      reads this
    {
      WellFormed(valuesSheet) &&
      entries.Keys <= {VolcanoKey, ValuesKey} &&
      (VolcanoKey in entries ==>
         entries[VolcanoKey].VolcanoEntry? && PreparedVolcano(entries[VolcanoKey].points)) &&
      (ValuesKey in entries ==> entries[ValuesKey] == ValuesEntry(valuesSheet)) &&
      limmaLoads == (if VolcanoKey in entries then 1 else 0) &&
      valuesLoads == (if ValuesKey in entries then 1 else 0)
    }

    /** The empty cache of a freshly started server. */
    constructor (limmaSheet: seq<LimmaRow>, valuesSheet: ValuesTable, negLog10: real -> real)
      requires WellFormed(valuesSheet)
      ensures Valid()
      ensures this.limmaSheet == limmaSheet && this.valuesSheet == valuesSheet
      ensures this.negLog10 == negLog10
      ensures entries == map[] && limmaLoads == 0 && valuesLoads == 0
    {
      this.limmaSheet := limmaSheet;
      this.valuesSheet := valuesSheet;
      this.negLog10 := negLog10;
      entries := map[];
      limmaLoads := 0;
      valuesLoads := 0;
    }

    /** `volcano_data`: prepare the points on the first request, and serve the
        cached points on every later one. */
    method VolcanoData() returns (points: seq<VolcanoPoint>)
      requires Valid()
      modifies this
      ensures Valid()
      ensures PreparedVolcano(points)
      ensures VolcanoKey in old(entries) ==> points == old(entries)[VolcanoKey].points
      ensures entries == old(entries)[VolcanoKey := VolcanoEntry(points)]
      ensures limmaLoads == (if VolcanoKey in old(entries) then old(limmaLoads) else old(limmaLoads) + 1)
      ensures limmaLoads <= 1 && valuesLoads == old(valuesLoads)
    {
      if VolcanoKey !in entries {
        limmaLoads := limmaLoads + 1;
        var prepared := PrepareVolcanoData(limmaSheet, negLog10);
        entries := entries[VolcanoKey := VolcanoEntry(prepared)];
      }
      points := entries[VolcanoKey].points;
    }

    /** `boxplot_data`: load the values sheet on the first request only, and
        compute the gene's boxplot record afresh on every request. */
    method BoxplotData(geneSymbol: string) returns (r: BoxplotResponse)
      requires Valid()
      modifies this
      ensures Valid()
      ensures r == PrepareBoxplotData(valuesSheet, geneSymbol)
      ensures entries == old(entries)[ValuesKey := ValuesEntry(valuesSheet)]
      ensures valuesLoads == (if ValuesKey in old(entries) then old(valuesLoads) else old(valuesLoads) + 1)
      ensures valuesLoads <= 1 && limmaLoads == old(limmaLoads)
    {
      if ValuesKey !in entries {
        valuesLoads := valuesLoads + 1;
        entries := entries[ValuesKey := ValuesEntry(valuesSheet)];
      }
      r := PrepareBoxplotData(entries[ValuesKey].table, geneSymbol);
    }
  }

  /** One element of `hits` in a mygene.info query answer. */
  datatype Hit = Hit(id: string)

  /** The answer to `query?q=symbol:<gene_symbol>`. */
  datatype GeneQuery = GeneQuery(hits: seq<Hit>)

  /** One GeneRIF reference; either member may be absent. */
  datatype GeneRif = GeneRif(pubmed: Option<nat>, text: Option<string>)

  /** The answer to `gene/<gene_id>`; `generif` may be absent. */
  datatype GeneDetail = GeneDetail(generif: Option<seq<GeneRif>>)

  const GeneNotFound: string := "Gene not found"
  const NoTitle: string := "No title available"
  const PubMedPrefix: string := "https://pubmed.ncbi.nlm.nih.gov/"

  function PubMedUrl(id: nat): string {
    PubMedPrefix + DecimalString(id)
  }

  /** The PubMed id a publication URL points at, if it is one. */
  function PubMedIdOf(url: string): Option<nat> {
    if StartsWith(url, PubMedPrefix) && |url| > |PubMedPrefix|
       && forall c :: c in url[|PubMedPrefix|..] ==> IsDigit(c)
    then Some(ParseDecimal(url[|PubMedPrefix|..]))
    else None
  }

  /** A PubMed URL leads back to the id it was made from. */
  lemma PubMedUrlRoundTrip(id: nat)
    ensures PubMedIdOf(PubMedUrl(id)) == Some(id)
  {
    var url := PubMedUrl(id);
    assert url[|PubMedPrefix|..] == DecimalString(id);
    DecimalRoundTrip(id);
  }

  predicate HasPubmed(ref: GeneRif) {
    ref.pubmed.Some?
  }

  /** The publication record of a reference that has a `pubmed` member. */
  function PublicationOf(ref: GeneRif): (p: Publication)
    requires HasPubmed(ref)
    ensures PubMedIdOf(p.url) == Some(ref.pubmed.value)
    ensures |p.url| > |PubMedPrefix| && (p.url[|PubMedPrefix|] == '0' ==> ref.pubmed.value == 0)
    ensures p.title == if ref.text.Some? then ref.text.value else "No title available"
  {
    PubMedUrlRoundTrip(ref.pubmed.value);
    Publication(
      if ref.text.Some? then ref.text.value else NoTitle,
      PubMedUrl(ref.pubmed.value))
  }

  /** The publications of a reference list: one per reference with a
      `pubmed` member, in list order; the others are skipped. */
  function PublicationsFrom(refs: seq<GeneRif>): (pubs: seq<Publication>)
    ensures |pubs| == |Filter(refs, HasPubmed)|
    ensures forall i :: 0 <= i < |pubs| ==> pubs[i] == PublicationOf(Filter(refs, HasPubmed)[i])
  {
    if refs == [] then []
    else if HasPubmed(refs[0]) then [PublicationOf(refs[0])] + PublicationsFrom(refs[1..])
    else PublicationsFrom(refs[1..])
  }

  /** A reference list that is absent gives no publications. */
  function PublicationsOf(detail: GeneDetail): seq<Publication> {
    match detail.generif
    case None => []
    case Some(refs) => PublicationsFrom(refs)
  }

  /** The `for ref in gene_detail['generif']` loop. */
  method CollectPublications(refs: seq<GeneRif>) returns (pubs: seq<Publication>)
    ensures pubs == PublicationsFrom(refs)
  {
    pubs := [];
    for i := 0 to |refs|
      invariant pubs == PublicationsFrom(refs[..i])
    {
      PublicationsFromSnoc(refs[..i], refs[i]);
      assert refs[..i + 1] == refs[..i] + [refs[i]];
      if HasPubmed(refs[i]) {
        pubs := pubs + [PublicationOf(refs[i])];
      }
    }
    assert refs[..|refs|] == refs;
  }

  /** Appending one reference appends at most its publication. */
  lemma PublicationsFromSnoc(refs: seq<GeneRif>, ref: GeneRif)
    ensures PublicationsFrom(refs + [ref]) ==
            PublicationsFrom(refs) + if HasPubmed(ref) then [PublicationOf(ref)] else []
  {
    FilterConcat(refs, [ref], HasPubmed);
    assert Filter([ref], HasPubmed) == if HasPubmed(ref) then [ref] else [];
  }

  /** `gene_info`: the first hit's id selects the detail record; no hits is
      the error record. `detailOf` is mygene.info's answer for a gene id. */
  method GeneInfo(geneSymbol: string, query: GeneQuery, detailOf: string -> GeneDetail)
    returns (r: GeneInfoResponse)
    ensures r.GeneInfoError? <==> query.hits == []
    ensures r.GeneInfoError? ==> r.error == "Gene not found"
    ensures r.GeneInfoFound? ==>
              r.geneSymbol == geneSymbol && r.geneId == query.hits[0].id &&
              r.publications == PublicationsOf(detailOf(query.hits[0].id))
  {
    if query.hits != [] {
      var geneId := query.hits[0].id;
      var detail := detailOf(geneId);
      var publications := [];
      if detail.generif.Some? {
        publications := CollectPublications(detail.generif.value);
      }
      return GeneInfoFound(geneSymbol, geneId, publications);
    }
    return GeneInfoError(GeneNotFound);
  }
}
