/** The JSON bodies that the Flask server (app.py) sends and the browser
    code (static/js/main.js) reads, as plain values. A body that carries an
    `error` member is a separate constructor, so a handler sees a tagged
    value instead of probing for the member. */
module Api {

  /** One element of `points` in the body of `/api/volcano-data`. */
  datatype VolcanoPoint = VolcanoPoint(
    geneSymbol: string,
    logFC: real,
    negLog10PVal: real,
    significant: bool)

  /** One group (`young` or `old`) of a boxplot body. Its `mean` and `std`
      members are floating-point summaries that the model leaves out. */
  datatype Group = Group(group: string, values: seq<real>)

  /** The body of `/api/boxplot-data/<gene_symbol>`; `youngGroup` and
      `oldGroup` are its `young` and `old` members. */
  datatype BoxplotResponse =
    | BoxplotError(error: string)
    | Boxplot(geneSymbol: string, youngGroup: Group, oldGroup: Group)

  datatype Publication = Publication(title: string, url: string)

  /** The body of `/api/gene-info/<gene_symbol>`. */
  datatype GeneInfoResponse =
    | GeneInfoError(error: string)
    | GeneInfoFound(geneSymbol: string, geneId: string, publications: seq<Publication>)
}
