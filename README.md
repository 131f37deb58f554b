# AutoBio-X gene lookup, modelled in Dafny

AutoBio-X is a small gene-lookup dashboard. It has two parts:

- an HTTP back end (`api.py`). It loads three CSV tables at start-up: expression values, mutations and drug interactions. Its three endpoints return the rows whose `Gene` column, upper-cased, equals the upper-cased query.
- a Streamlit front end (`app.py`). It reads a gene symbol and calls the three endpoints. When a call fails it falls back to fixed sample data. It shows one panel per kind of data and offers a PDF report when all three look usable.

The model is four modules. All of them are pure, like the code they model: `api.py` is boolean-mask filtering and projection with no loop, and the parts of `app.py` in scope are expressions and branches.

- `Json` (json.dfy): decoded JSON values (`Value`), Python truthiness and `dict.get`, and the `Outcome` of one HTTP request: an exception, or a status code and a body that may or may not decode.
- `Text` (text.dfy): the Python string built-ins the code uses: `str.upper()`, `str.strip()`, and formatting an int into an f-string.
- `Api` (api.py): tables as a column list plus a sequence of rows. A row maps column names to values, and a cell the row lacks reads as NaN (`Null`). The model covers the loader's contract, the filter (`Select`), an independent index-based account of the filter (`MatchIndices`), and the three endpoints. Each endpoint takes its dataset as a parameter instead of reading a module global. An endpoint's `Reply` is a JSON body (served with status 200) or an uncaught exception (served as 500 with a body that is not JSON).
- `App` (app.py): the fetch helpers as maps from `Outcome` to value, `safe_text`, Python's `in` operator, the ok tests, the three display branches, and one run of the page. The network is a function from URL to `Outcome`. The exceptions raised by the display conditions, the ok tests and the `.get`/`[0]` calls of the warning branches (app.py:89-111) are explicit `Crashed` or `Crash` outcomes. The table renderers are assumed not to raise (see "## Left out").

Lookups cannot change a dataset: every endpoint is a function of its table and the query.

Points where the code's behaviour is easy to misread:
- The expression lookup drops the row's first column by position (`iloc[0][1:]`), whatever that column is called. It does not look for the gene-symbol column.
- A response with a status other than 200 does not fall back to the sample data. It gives an error record `{"error": "API returned <code>"}`. Only an exception falls back to the samples, including a body that is not JSON or, for expressions, a body that is not a JSON object.
- A non-empty dataset without a `Gene` column makes the endpoint raise (KeyError, status 500). Once a row matches, a drug dataset without `Drug` or `Interaction` columns does the same.

## Model

| member | source | states |
|---|---|---|
| Text.Upper | api.py:37 | upper-casing never shortens a string and gives the empty string only for the empty string |
| Text.UpperIdempotent | api.py:37-38 | upper-casing an already upper-cased query changes nothing |
| Text.Strip | app.py:78 | the result starts and ends with a non-space, is one contiguous slice of the input, and everything cut off before and after it is white space |
| Text.StripBlank | app.py:78 | the stripped input is empty exactly when the input is all white space |
| Text.NatDigits | app.py:36 | a status code is written as decimal digits with no leading zero |
| Text.NatDigitsRoundTrip | app.py:36 | reading the digits back gives the status code |
| Api.ReadRoot | api.py:25-27 | GET / answers an object whose only field "message" holds the welcome text |
| Api.Health | api.py:29-31 | GET /health answers an object whose only field "status" is "ok" |
| Api.LoadCsv | api.py:9-18 | loading never raises: a missing or unreadable file gives an empty table, a parsed one is returned as is |
| Api.Select | api.py:38 | the filter keeps only matching rows, keeps every matching row, and is empty exactly when no row matches |
| Api.MatchIndices | api.py:48 | the matching positions, strictly increasing, each matching, with every matching position present |
| Api.SelectAppend | api.py:48 | filtering a concatenation is concatenating the filtered parts, so table order is kept |
| Api.SelectInOrder | api.py:48-51 | the k-th kept row is the row at the k-th matching position |
| Api.FirstHit | api.py:38-41 | the filtered frame's row 0 is the table's first matching row |
| Api.FirstHitIsFirstMatch | api.py:38-41 | every first-match index names the same row, the filtered frame's row 0 |
| Api.DrugRecordShape | api.py:61 | a projected drug record has exactly the keys Drug and Interaction, copied from the row |
| Api.GetExpression | api.py:33-41 | empty dataset gives the error object for any gene; no Gene column raises; "Not found" with the upper-cased gene exactly when no row matches; otherwise the upper-cased gene and the first matching row without column 0 |
| Api.GetMutation | api.py:43-51 | error object on an empty dataset; "Not found" exactly when no row matches; otherwise one whole record per matching row, in table order |
| Api.GetDrugs | api.py:53-61 | error object on an empty dataset; "Not found" exactly when no row matches; with matches it raises exactly when Drug or Interaction is missing, else one Drug/Interaction record per matching row in table order |
| Api.CaseInsensitive | api.py:33-61 | each endpoint gives the same reply for a query and for its upper-cased form |
| App.FetchExpression | app.py:29-39 | status 200 gives the "expression" field or {}; another status gives the "API returned <code>" record; an exception or an undecodable or non-object body gives the fixed three-sample map |
| App.FetchRecords | app.py:42-71 | status 200 gives the whole decoded body; another status gives a one-element list holding the error record; an exception or undecodable body gives the fixed sample list |
| App.SafeText | app.py:74-75 | the output is no longer than the input and every character of it is at most code point 255 |
| App.SafeTextAppend | app.py:75 | safe_text of a concatenation is the concatenation of the two results, so order is kept |
| App.SafeTextKeepsLatin1 | app.py:75 | a string of Latin-1 characters comes through unchanged |
| App.SafeTextIdempotent | app.py:75 | applying safe_text twice equals applying it once |
| App.SafeTextCounts | app.py:75 | every Latin-1 character occurs in the output as often as in the input, every other character not at all |
| App.ExpressionOk | app.py:109 | expression_ok holds exactly for a non-empty dict without an "error" key |
| App.RecordsOk | app.py:110-111 | mutation_ok and drug_ok: false unless the value is a non-empty list; with element 0 a dict they hold exactly when it has no "error" key, a str exactly when "error" is not a substring, a list exactly when it does not hold the string "error"; they raise exactly when element 0 is None, a bool or a number |
| App.OnlyFirstRecordInspected | app.py:110-111 | the ok tests look at element 0 only |
| App.ShowExpressionAsWritten | app.py:89-94 | the panel is a table of the value exactly when expression_ok holds, raises exactly when the value is not a dict, and otherwise warns with the dict's "error" field or "No expression data available." |
| App.ShowRecordsAsWritten | app.py:96-106 | the panel is a table of the value exactly when the ok test holds; it survives only for a non-empty list whose element 0 is a dict or passes the test, and then warns with element 0's "error" field or the fallback text; it raises KeyError on any dict |
| App.ShowExpression | app.py:89-94 | corrected panel: never raises, agrees with the code wherever the code does not raise, and warns with the fallback text for a non-dict |
| App.ShowRecords | app.py:96-106 | corrected panel: never raises, is a table exactly when the ok test holds, agrees with the code wherever the code does not raise, warns with a dict's "error" field or the fallback, and warns with the fallback text for every other value that is not shown (such as an empty list) |
| App.Gene | app.py:78 | the gene is empty exactly when the input is all white space, and is already upper case |
| App.RenderPageAsWritten | app.py:78-113 | blank input makes no request and shows nothing; otherwise the three requests in order, then the as-written expression, mutation and drug panels of the fetched values in that order, stopping after the first one that raises; the report is offered exactly when all three ok tests hold |
| App.RenderPage | app.py:78-113 | with the corrected panels: the same requests, then exactly the corrected expression, mutation and drug panels of the fetched values, none of which raises, and the same report gate |
| App.CorrectionIsConservative | app.py:89-111 | on a run where no panel raises, the corrected page equals the page as written |
| App.ExpressionThroughApi | app.py:32-34 | through the back end: an empty dataset shows as {}, a missing Gene column as "API returned 500", an unknown gene as "Not found", a known one as its first row without column 0 |
| App.MutationThroughApi | app.py:45-47 | through the back end: the error object, "API returned 500" in a list, the "Not found" dict, or the endpoint's list with one record per matching row |
| App.UnknownGeneCrashesPage | app.py:94 | for a gene that a non-empty expression dataset with a Gene column lacks, the page as written raises AttributeError in its first panel and shows nothing else |
| App.UnknownGeneCrashesRecordPanels | app.py:100 | for a gene that a non-empty mutation or drug dataset with a Gene column lacks, that panel as written raises KeyError |
| App.UnknownGeneWarns | app.py:89-106 | with the corrected panels, a gene that none of the three datasets holds, each non-empty and with a Gene column, gives the three fallback warnings and no report |

## Findings

| source | as written | input that shows it | evidently intended | confidence | as-written member | corrected member |
|---|---|---|---|---|---|---|
| app.py:94 | `expr.get("error", ...)` is called on whatever the helper returned | a gene that is not in the expression table: the back end answers `{"gene": G, "expression": "Not found"}`, the helper returns the string "Not found", and `str` has no `get` (AttributeError), so the page stops | the warning "No expression data available." | high; not executed | App.UnknownGeneCrashesPage | App.ShowExpression |
| app.py:100 | `muts[0]` is taken on whatever the helper returned | a gene that is not in the mutation table: the back end answers the dict `{"gene": G, "mutation": "Not found"}`, and `dict[0]` raises KeyError (the same holds for the drug panel at app.py:106 and for the back end's dataset-error dict) | a warning with the dict's "error" field, or "No mutation data found." | high; not executed | App.UnknownGeneCrashesRecordPanels | App.ShowRecords |

`App.RenderPage` uses the corrected panels. `App.RenderPageAsWritten` keeps the code's behaviour so that the findings can be stated against it.

## Left out

- CSV parsing by pandas (`pd.read_csv`) and the messages `load_csv` prints: tables are inputs, and only the loader's contract (it never raises, and a missing or unreadable file gives an empty table) is modelled.
- FastAPI routing, path decoding and JSON serialisation are framework glue. A NaN cell in a returned record, which the serialiser would reject, is modelled as JSON null.
- pandas' `.str` accessor raises when the Gene column holds no strings at all (all numeric or all NaN). The model lets such cells never match instead.
- Key order inside a record or the expression mapping is not modelled: JSON objects are maps. Row order is modelled. Duplicate column names are not modelled.
- Text.Upper: upper-cases ASCII and Latin-1 letters (including ß to SS) and leaves every other character unchanged, whereas Python applies the full Unicode case mapping.
- Expression values are floats that nothing computes with. They are opaque reals here, and NaN is not representable.
- `requests.get`, its timeout and network errors are one abstract `Outcome` per URL. Query strings and URL encoding of the gene are not modelled.
- App.ShowRecordsAsWritten: assumes `pd.DataFrame` and `st.table` (app.py:98, app.py:104) do not raise once the ok test holds. pandas raises AttributeError when a later element of the list is not a dict, e.g. `[{"Mutation": "x"}, 1.0]`, and the model shows that value as a table instead. Neither the back end's replies nor the fallback samples have this shape.
- App.ShowRecords: shares that assumption, so its "never raises" holds only for the modelled branches, not for the table render of such a list.
- App.ShowExpressionAsWritten: assumes `pd.DataFrame(expr.items(), ...)` and `st.dataframe` (app.py:91-92) do not raise on a dict that passes the test.
- Streamlit widgets, the spinner, the warning texts in the exception handlers, page layout, the e-mail form and the footer are UI.
- The PDF report (FPDF calls, fonts, cells, temporary files, `os.unlink`) is external layout and file I/O. Only the gate that offers it and `safe_text` are modelled.
- `safe_text` applies `str()` first. Every caller passes a string, so the model takes a string.
- Only one run of the Streamlit script is modelled. Reruns triggered by widgets, such as the PDF button, are not.
