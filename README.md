# Seinfeld script search tool and model routing

This project models the deterministic part of a Seinfeld script generator built on CrewAI agents.

**The script-search tool (`SeinfeldRAGTool`).** The agents call this tool to find dialogue examples in a Couchbase vector store. While the tool is built it connects to:
- the cluster,
- a bucket, scope and collection,
- an embeddings model,
- the vector store.

These steps stop at the first exception. On a query, `_run` formats the store's hits as a Markdown report, or falls back to a canned demo response. The demo response is a template in which every `[topic]` is replaced by the first word of the query.

**Model-name routing (`get_llm`).** The configured model name gets an `openai/` prefix unless it already has one or is unset or empty.

Modules:
- `PyStr`: the Python string operations the code calls, namely `str.split()` with Python's whitespace set, `str.replace` and `startswith`. It also holds helpers the model uses only to state properties: `Count` (`str.count`) for the four placeholders, `Contains` (`in`) for the surviving `[Topic]`, `Join` (`sep.join`) for the template as pieces joined by `[topic]`, and `EndsWith`. The lemmas that make substitution into a template tractable live here too.
- `Decimal`: `str(n)` for a natural number, and its inverse.
- `DemoResponse`: the demo template and `_get_demo_response`.
- `Report`: the report `_format_results` writes, as functions, and its shape.
- `RagTool`: the input schema, the outcome of the vector search, and the class `SeinfeldRagTool`. The class has the connection handles as optional fields, its constructor, `_vector_search`, the loop of `_format_results` proved against `Report`, and `_run`.
- `ModelName`: the normalisation in `get_llm`.

Some inputs are parameters rather than behaviour:
- The vector store's `similarity_search` is an oracle: a `SearchOutcome` that either returned hits or raised.
- `_initialize_connections` is summarised by the number of connection steps that succeeded.

`num_results` outside 1..10 is refused by the schema's `ge=1, le=10` validation and is never clamped (`RagTool.ValidateInput`).

## Model

| member | source | states |
|---|---|---|
| DemoResponse.Topic | seinfeld_script_generator/src/seinfeld_script_generator/tools/couchbase_rag.py:235 | the topic is `this` for an empty query and otherwise the first whitespace-separated word; it fails exactly when the query is non-empty and made only of whitespace, and the failure is `IndexError` |
| DemoResponse.Demo | seinfeld_script_generator/src/seinfeld_script_generator/tools/couchbase_rag.py:174-235 | the demo response fails exactly on a non-empty, all-whitespace query |
| DemoResponse.TemplatePlaceholders | seinfeld_script_generator/src/seinfeld_script_generator/tools/couchbase_rag.py:185-220 | the template holds exactly four `[topic]` placeholders |
| DemoResponse.Substitution | seinfeld_script_generator/src/seinfeld_script_generator/tools/couchbase_rag.py:235 | replacing `[topic]` puts the topic in each of the four places and changes nothing else in the template |
| DemoResponse.NoPlaceholderLeft | seinfeld_script_generator/src/seinfeld_script_generator/tools/couchbase_rag.py:235 | when the topic has no `[`, no `[topic]` remains in the answer |
| DemoResponse.CapitalisedSurvives | seinfeld_script_generator/src/seinfeld_script_generator/tools/couchbase_rag.py:207 | replacement is case-sensitive: the capitalised `[Topic]` appears in every answer |
| DemoResponse.DemoAnswer | seinfeld_script_generator/src/seinfeld_script_generator/tools/couchbase_rag.py:235 | an empty query gives the template filled with `this`, a blank query gives `IndexError`, and any other query gives the template filled with its first word |
| DemoResponse.DemoFirstWordOnly | seinfeld_script_generator/src/seinfeld_script_generator/tools/couchbase_rag.py:235 | the answer depends on the query only through its first word |
| PyStr.Split | seinfeld_script_generator/src/seinfeld_script_generator/tools/couchbase_rag.py:235 | `str.split()` gives no words exactly when the string is all whitespace |
| PyStr.FirstWord | seinfeld_script_generator/src/seinfeld_script_generator/tools/couchbase_rag.py:235 | the first word of `split()` is non-empty, has only whitespace before it, and ends at whitespace or at the end of the string |
| PyStr.SplitWords | seinfeld_script_generator/src/seinfeld_script_generator/tools/couchbase_rag.py:235 | every word `split()` yields is non-empty and contains no whitespace |
| PyStr.SplitOneWord | seinfeld_script_generator/src/seinfeld_script_generator/tools/couchbase_rag.py:235 | a single word splits into itself |
| PyStr.ReplaceJoin | seinfeld_script_generator/src/seinfeld_script_generator/tools/couchbase_rag.py:235 | in a text whose parts cannot start a match, `replace` swaps every separator occurrence for the replacement, and `count` finds one fewer occurrence than there are parts |
| PyStr.InertPrefix | seinfeld_script_generator/src/seinfeld_script_generator/tools/couchbase_rag.py:235 | `replace` leaves a prefix that cannot start a match unchanged |
| Decimal.DecimalString | seinfeld_script_generator/src/seinfeld_script_generator/tools/couchbase_rag.py:151 | `str(n)` is a non-empty string of digits without a leading zero |
| Decimal.ParseDecimalString | seinfeld_script_generator/src/seinfeld_script_generator/tools/couchbase_rag.py:151 | reading `str(n)` back gives `n` |
| Decimal.DecimalInjective | seinfeld_script_generator/src/seinfeld_script_generator/tools/couchbase_rag.py:154 | different numbers print differently |
| Report.Excerpt | seinfeld_script_generator/src/seinfeld_script_generator/tools/couchbase_rag.py:167 | the dialogue shown is the text itself up to 1000 characters; a longer text shows its first 1000 characters followed by `...` |
| Report.DialogueBlock | seinfeld_script_generator/src/seinfeld_script_generator/tools/couchbase_rag.py:165-167 | there is no dialogue block exactly when the text is empty; otherwise the block is the label and opening fence, the excerpt, and the closing fence, with nothing else between the fences |
| Report.MetadataLines | seinfeld_script_generator/src/seinfeld_script_generator/tools/couchbase_rag.py:157-162 | there are no metadata lines exactly when both title and description are absent; without a title the lines are just the Context line (if any), and without a description just the Episode line (if any); with both present, the lines are exactly the Episode line followed by the Context line |
| Report.ScoreLine | seinfeld_script_generator/src/seinfeld_script_generator/tools/couchbase_rag.py:169 | the score line shows the score, or `N/A` when it is absent |
| Report.ExampleLayout | seinfeld_script_generator/src/seinfeld_script_generator/tools/couchbase_rag.py:153-170 | each example block opens with `### Example n` and closes with `---` |
| Report.ExamplesLayout | seinfeld_script_generator/src/seinfeld_script_generator/tools/couchbase_rag.py:153-170 | the j-th block of the report is numbered j, counting from 1, and closes with `---` |
| Report.HeadingsDistinct | seinfeld_script_generator/src/seinfeld_script_generator/tools/couchbase_rag.py:153-154 | no two blocks share a heading |
| Report.ReportOpening | seinfeld_script_generator/src/seinfeld_script_generator/tools/couchbase_rag.py:149-151 | the report opens with the title line, the query line and the count line, and the digits between `**Found ` and ` relevant examples:**` read back as the number of hits |
| Report.ReportAppend | seinfeld_script_generator/src/seinfeld_script_generator/tools/couchbase_rag.py:153-170 | one more hit adds exactly one block at the end, numbered after the others, and leaves the earlier blocks in input order |
| RagTool.ValidateInput | seinfeld_script_generator/src/seinfeld_script_generator/tools/couchbase_rag.py:14-28 | `num_results` defaults to 5; a value outside 1..10 is a validation error and is not clamped; a valid value is passed on unchanged |
| RagTool.SearchResults | seinfeld_script_generator/src/seinfeld_script_generator/tools/couchbase_rag.py:112-120 | a raising search, including one with no vector store, yields no hits; otherwise the store's hits are returned as they are |
| RagTool.Respond | seinfeld_script_generator/src/seinfeld_script_generator/tools/couchbase_rag.py:122-145 | the demo response whenever the cluster or the OpenAI client is unset or the search found nothing; otherwise the formatted report of the hits |
| RagTool.SearchFailureFallsBack | seinfeld_script_generator/src/seinfeld_script_generator/tools/couchbase_rag.py:114-141 | a failed search gives the demo response |
| RagTool.RespondRaisesOnlyOnBlankQuery | seinfeld_script_generator/src/seinfeld_script_generator/tools/couchbase_rag.py:122-145 | `_run` raises exactly when it takes the demo path with a non-empty all-whitespace query, and then raises `IndexError`; it never propagates a search error |
| RagTool.SeinfeldRagTool.constructor | seinfeld_script_generator/src/seinfeld_script_generator/tools/couchbase_rag.py:51-110 | the connection steps run in order and stop at the first failure; the OpenAI client is never set |
| RagTool.SeinfeldRagTool.VectorSearch | seinfeld_script_generator/src/seinfeld_script_generator/tools/couchbase_rag.py:112-120 | `_vector_search` returns the hits of `SearchResults` |
| RagTool.SeinfeldRagTool.FormatResults | seinfeld_script_generator/src/seinfeld_script_generator/tools/couchbase_rag.py:147-172 | the loop writes exactly `FormattedReport`: the header, then the block of each hit in order |
| RagTool.SeinfeldRagTool.Run | seinfeld_script_generator/src/seinfeld_script_generator/tools/couchbase_rag.py:122-145 | `_run` answers as `Respond`; since the OpenAI client is never set, a tool built by the constructor always answers with the demo response |
| ModelName.Normalize | seinfeld_script_generator/src/seinfeld_script_generator/crew.py:27-28 | the name is `None` exactly when the input was `None`; a non-empty result starts with `openai/` and ends with the original name; the name is unchanged exactly when it is `None`, empty or already prefixed, and otherwise becomes `openai/` followed by it |
| ModelName.NormalizeIdempotent | seinfeld_script_generator/src/seinfeld_script_generator/crew.py:27-28 | normalising twice is the same as normalising once |

## Left out

- `_initialize_connections`: reading the environment, the Couchbase SDK and the embeddings client are I/O. The model keeps only the outcome, which is how many steps succeeded before the first exception.
- `similarity_search`: a foreign vector-database call with floating-point dot-product scores. It is an oracle parameter. The `k=num_results` limit and the `fields` argument are not modelled, and scores are opaque strings.
- Search hit shape: the vector store returns langchain `Document` objects, while `_format_results` reads dicts through `.get`. Hits are modelled as the records the formatter expects. The mismatch cannot occur, because the formatting path is unreachable while the OpenAI client is never set.
- Metadata values: `**Episode:**` and `**Context:**` print their values with `str()`. The model takes them as strings already, and treats an empty metadata dict and a missing one alike, as the code does.
- RagTool.ValidateInput: states pydantic's `ge`/`le` check and the default. Pydantic's other coercions (strings to ints, booleans) are not modelled.
- `print` warnings in `_initialize_connections` and `_vector_search`.
- Everything else in `crew.py`: the agents, the tasks, the crew, the LLM construction and calls, and the asynchronous `run_crew_async`. These are foreign library behaviour, LLM I/O and concurrency.
- `main.py`: command-line plumbing and file output.
