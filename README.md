# Aging proteomics dashboard — a Dafny model

The dashboard shows a volcano plot of the limma results of a young-versus-old
plasma proteomics study. A click on a protein loads a boxplot of that
protein's per-sample values and a list of related PubMed publications. This
project models the data-shaping core of the dashboard and proves what it
promises:

- `seqs.dfy` (module `Seqs`): order-keeping `Filter`, `Map` and `FlatMap`
  over sequences, the `Option` type, `Distinct` and `IndexOf`.
- `text.dfy` (module `Text`): prefix and substring tests (`startswith`,
  `in`), decimal rendering of an integer, and the first position of a
  character.
- `api.dfy` (module `Api`): the JSON bodies of the three endpoints. A body
  with an `error` member is its own constructor.
- `data_processing.dfy` (module `DataProcessing`): `prepare_volcano_data`
  (one point per limma row, and the significance rule) and
  `prepare_boxplot_data` (symbol lookup, `Set`/`YD`/`OD` column
  classification, row-major flattening).
- `app.dfy` (module `App`): the `DATA_CACHE` memoisation of the two loaders
  as a class with a map field, and `gene_info`'s hit/no-hit branch and
  publication loop.
- `dashboard.dfy` (module `Dashboard`): `createVolcanoPlot` (the two-trace
  partition and the three threshold lines), `createBoxplot`, `loadBoxplot`'s
  error branch, `loadGeneInfo`'s markup loop, and the page state that the
  `plotly_click` handler and the two responses change.

JavaScript's truthiness is modelled where it matters. An empty `error`
string is falsy. In `loadBoxplot` such a body goes on to `createBoxplot`,
which throws on the missing `young` member; the exception is caught and the
panel keeps its content. In `loadGeneInfo` the same body falls through to the
"no publications" message. `Math.min()` and `Math.max()` with no arguments
give positive and negative infinity, so the numbers of the threshold lines are
an extended real type (`Dashboard.Extended`).

## Model

| member | source | states |
|---|---|---|
| DataProcessing.PointOf | data_processing.py:24-29 | the point copies the symbol and fold change, its y value is -log10 of the adjusted p-value, and it is significant if and only if adj.P.Val < 0.05 and logFC > 1 or logFC < -1 |
| DataProcessing.PrepareVolcanoData | data_processing.py:18-32 | exactly one point per limma row, in row order, each the point of its row |
| DataProcessing.SampleColumnsAreSetColumns | data_processing.py:40 | a column is a sample column if and only if its name starts with `Set`, and sample columns keep the sheet's column order |
| DataProcessing.GroupColumnMembership | data_processing.py:42-43 | a column is young if and only if it is a `Set` column containing `YD`, old if and only if a `Set` column containing `OD`; nothing makes the groups disjoint |
| DataProcessing.MatchingRows | data_processing.py:36 | only rows of the sheet whose `EntrezGeneSymbol` equals the requested symbol are selected |
| DataProcessing.MatchingRowsComplete | data_processing.py:36 | every row of the sheet with the requested symbol is selected, as many times as it occurs in the sheet |
| DataProcessing.MatchingRowsConcat | data_processing.py:36 | the mask keeps sheet order: the matches among rows `a` then `b` are the matches in `a` followed by those in `b` |
| DataProcessing.GroupColumns | data_processing.py:42-43 | every group column is a column of the sheet |
| DataProcessing.GroupColumnsKeepOrder | data_processing.py:40-43 | the young columns, and likewise the old columns, appear in the sheet's column order |
| DataProcessing.Select | data_processing.py:45-46 | selecting named columns of a row gives one cell per name, in the order of the names, each the row's cell under that name |
| DataProcessing.FlattenLength | data_processing.py:45-46 | flattening gives one value per (row, column) pair |
| DataProcessing.FlattenConcat | data_processing.py:45-46 | flattening two row lists one after the other is flattening each and concatenating |
| DataProcessing.FlattenSplit | data_processing.py:45-46 | a row's values sit between those of the rows before it and those after it |
| DataProcessing.FlattenAt | data_processing.py:45-46 | the flattening is row-major: entry i·n+k is row i's cell under column k |
| DataProcessing.PrepareBoxplotData | data_processing.py:35-61 | the result is the error `Gene <symbol> not found` if and only if no row has the symbol; otherwise it echoes the symbol and labels the groups `Young` and `Old` |
| DataProcessing.BoxplotValuesLength | data_processing.py:45-46 | a group holds (matching rows) × (group columns) values |
| DataProcessing.BoxplotValueAt | data_processing.py:36-46 | value i·n+k of a group is the cell of the i-th matching row under the k-th group column, and that row carries the requested symbol |
| App.DataCache.constructor | app.py:8 | the cache starts empty and no loader has run |
| App.DataCache.VolcanoData | app.py:17-24 | the served points are the prepared limma sheet; a cached entry is served unchanged; the limma loader runs on the first request only, and at most once while requests are served one at a time; the values entry is untouched |
| App.DataCache.BoxplotData | app.py:27-34 | the result is `prepare_boxplot_data` of the values sheet, recomputed on every call; the values loader runs only on the first request, and at most once while requests are served one at a time |
| App.PubMedUrlRoundTrip | app.py:60 | the id can be read back from the PubMed URL made of it |
| App.PublicationOf | app.py:57-61 | the URL is the PubMed prefix followed by the reference's id in plain decimal, with no leading zero, so it leads back to that id; the title is the reference's `text`, or `No title available` when it is absent |
| App.PublicationsFrom | app.py:54-61 | one publication per reference that has `pubmed`, in list order; references without it are skipped |
| App.PublicationsFromSnoc | app.py:56-61 | one more reference appends its publication if it has `pubmed`, and nothing otherwise |
| App.CollectPublications | app.py:54-61 | the `for`/`append` loop builds exactly the publication list of the references |
| App.GeneInfo | app.py:37-69 | the error `Gene not found` if and only if the query has no hits; otherwise the requested symbol, the first hit's id and the publications of that id's detail record, an empty list when `generif` is absent |
| Text.ContainsIffOccurs | data_processing.py:42-43 | the substring test holds if and only if the part occurs at some position |
| Text.DecimalRoundTrip | app.py:60 | an id rendered in decimal reads back as the same id |
| Seqs.FilterKeepsOrder | data_processing.py:40-43 | a filtering comprehension over distinct elements keeps their input order |
| Seqs.FilterFilter | data_processing.py:40-43 | filtering the filtered columns again is one filter by both tests, so the second comprehension keeps the first one's order |
| Seqs.FilterPartition | static/js/main.js:16-17 | filtering by a test and by its negation splits a sequence into two parts that together hold each element exactly as often |
| Dashboard.Minimum | static/js/main.js:77 | `Math.min` is +Infinity exactly for no arguments, and otherwise an argument no larger than any other |
| Dashboard.Maximum | static/js/main.js:78 | `Math.max` is -Infinity exactly for no arguments, and otherwise an argument no smaller than any other |
| Dashboard.ScatterOf | static/js/main.js:22-24 | x, y and text have one entry per point, and index i of all three comes from point i |
| Dashboard.VolcanoTraces | static/js/main.js:20-51 | two traces: trace 0 `Not Significant` shows the non-significant points, trace 1 `Significant` the significant ones |
| Dashboard.TracePointsPartition | static/js/main.js:16-17 | every point is in exactly one trace, the one its flag chooses, and each trace keeps the input order |
| Dashboard.MarkerIsInputPoint | static/js/main.js:124-126 | a clicked marker reports the fold change, significance value and symbol of one input point whose flag matches the trace |
| Dashboard.ThresholdLines | static/js/main.js:73-112 | a horizontal line at -log10(0.05) spanning the smallest to the largest fold change of all points; vertical lines at 1 and -1 from 0 to the largest significance value; infinite ends for no points |
| Dashboard.CreateBoxplot | static/js/main.js:159-192 | the title names the gene; trace `Young` holds the young values and trace `Old` the old ones; each x array matches its values in length and is filled with the trace name |
| Dashboard.ErrorParagraphContains | static/js/main.js:149 | the error markup contains the error message |
| Dashboard.BoxplotPanelAfter | static/js/main.js:143-156 | an error body never builds a chart: a non-empty message replaces the panel with the error paragraph, which contains the message; an empty message leaves the panel exactly as it was; a data body shows the chart of its two groups |
| Dashboard.LinkOpensNewContext | static/js/main.js:225 | every publication link carries `target="_blank"` and `rel="noopener noreferrer"` |
| Dashboard.GeneInfoOutcomes | static/js/main.js:215-235 | the markup starts with the `<h3>` heading; a non-empty error wins; else a non-empty list gives the list markup; else the "no publications" message |
| Dashboard.AppendEach | static/js/main.js:222-230 | the `forEach` loop appends the markup of every publication, in order |
| Dashboard.RenderGeneInfo | static/js/main.js:215-235 | the accumulated markup is exactly the gene-info markup |
| Dashboard.PublicationItemDelimited | static/js/main.js:223-229 | in the `<li>` template the URL is followed by a quote and the title by a line break |
| Dashboard.ReadLinkOf | static/js/main.js:223-229 | one link reads back as its publication, leaving the markup after it |
| Dashboard.LinksRoundTrip | static/js/main.js:222-230 | links made with a delimited template read back as exactly the publications, one per link, in order |
| Dashboard.ListItemsRoundTrip | static/js/main.js:222-230 | the list markup holds exactly one link per publication, in input order, with its URL and title |
| Dashboard.Page.constructor | static/js/main.js:1 | nothing is selected or requested and every panel is empty |
| Dashboard.Page.ShowVolcano | static/js/main.js:8 | the volcano element shows the figure of the received points |
| Dashboard.Page.OnPlotlyClick | static/js/main.js:124-139 | a click sets `selectedGene` to the clicked point's text, overwriting any earlier value, replaces the summary, and issues the boxplot load and then the gene-info load for that same gene; an event without points changes nothing; the last two requests always match the selection |
| Dashboard.Page.OnBoxplotResponse | static/js/main.js:143-156 | the boxplot panel becomes what `loadBoxplot` makes of the response |
| Dashboard.Page.OnGeneInfoResponse | static/js/main.js:210-237 | the gene-info panel becomes the gene-info markup of the response |

Some definitions carry no contract of their own. The lemma rows above specify them:
- `Dashboard.CreateVolcanoPlot` (static/js/main.js:15-113) is specified by `VolcanoTraces`, `TracePointsPartition`, `MarkerIsInputPoint` and `ThresholdLines`.
- `Dashboard.VolcanoShapes` (static/js/main.js:73-112) is specified by `ThresholdLines`.
- `Dashboard.GeneInfoHtml` (static/js/main.js:215-235) is specified by `GeneInfoOutcomes`, `RenderGeneInfo` and `ListItemsRoundTrip`.
- `App.PublicationsOf` (app.py:54-55) is specified by `App.GeneInfo`.
- `Dashboard.TracePoints` (static/js/main.js:16-17) is specified by `TracePointsPartition`.
- `Dashboard.ListItems` (static/js/main.js:222-230) is specified by `ListItemsRoundTrip` and `LinkOpensNewContext`.
- `Dashboard.ErrorParagraph` (static/js/main.js:149, 218) is specified by `ErrorParagraphContains`.
- `DataProcessing.Flatten` (data_processing.py:45-46) is specified by `FlattenLength`, `FlattenConcat`, `FlattenSplit` and `FlattenAt`.
- `DataProcessing.SampleColumns`, `YoungColumns` and `OldColumns` (data_processing.py:40-43) are specified by `SampleColumnsAreSetColumns`, `GroupColumnMembership` and `GroupColumnsKeepOrder`.

## Left out

- Fetching, `async`/`await`, `console.error` and the `DOMContentLoaded` wiring are not modelled: each response arrives as an `Api` value.
- App.DataCache.VolcanoData: requests are modelled one at a time. The development server handles requests in threads, and the test-then-load of `DATA_CACHE` is not atomic, so two overlapping first requests can both load the sheet. They get the same result, at the cost of one extra load, so "at most once" holds only for requests served one after another.
- App.DataCache.BoxplotData: requests are modelled one at a time; two overlapping first requests can both load the values sheet, for the same reason and with the same result.
- Responses to earlier clicks can arrive after later ones; the source has no guard against that, and the model handles each response on its own.
- Plotly rendering, styling, hover templates, layout and config are left out: traces and shapes are plain records of the data they carry.
- Dashboard.Page.OnPlotlyClick: the `volcano-info` text is kept as the symbol and the two numbers; `toFixed(3)`, `Math.pow(10, -y)` and `toExponential(3)` are floating-point formatting.
- DataProcessing.PointOf: -log10 is the parameter `negLog10`, not computed; `Dashboard.VolcanoShapes` uses the same parameter for `-Math.log10(0.05)`. Numbers are exact reals, not IEEE doubles.
- DataProcessing.PrepareBoxplotData: the `mean` and `std` members (`np.mean`, `np.std`) are not modelled.
- DataProcessing.WellFormed: a values sheet is assumed to have distinct column names and one numeric cell per column in every row. The spreadsheet reader guarantees the names. Missing or non-numeric cells are not modelled.
- Reading the workbook (`pd.read_excel`, file paths) is not modelled. `App.DataCache` is given the two sheets when it is made, and ghost counters record when each loader would have run.
- Flask routing, `jsonify`, `render_template` and the `requests.get` calls to mygene.info are not modelled. `App.GeneInfo` takes the query answer and a function from gene id to detail record.
- App.GeneInfo: an answer without a `hits` member, which raises `KeyError` in the source, is not modelled. Neither is a `generif` member that is not a list.
- App.PublicationOf: `pubmed` ids are non-negative integers rendered in decimal; an id given as a string is not modelled.
- Dashboard.ListItemsRoundTrip: read-back is proved only for URLs without a quote and titles without a line break. The source escapes nothing, so other publications produce ambiguous markup.
- Empty volcano data: the threshold lines are not skipped. The code computes `Math.min()`/`Math.max()` of nothing and hands the charting library shapes whose ends are `Infinity` and `-Infinity`; the model gives the same ends (`Dashboard.ThresholdLines`).
- The publication list is the unordered `<ul>` list that the code writes, not an ordered list.
