# Gradient knowledge-base retriever: result normaliser and configuration

This project models the core of the DigitalOcean Gradient knowledge-base retriever for
LlamaIndex. The retriever sends a query to a remote knowledge base. The part modelled here is
what it does locally:

- **Validating its configuration** when it is constructed. A missing or empty knowledge-base id
  is rejected first, then a missing or empty API token. Otherwise the five settings are stored
  unchanged.
- **Normalising the remote response** into scored text nodes (`_convert_to_nodes`). The raw
  results are walked in server order. Results without text are dropped. Each remaining result
  becomes a node with:
  - its text;
  - a metadata dictionary built from the attributes it has, with its extra metadata merged on top;
  - a score taken from `score`, then `relevance_score`, then the default 1.0;
  - an id: the merged metadata's `chunk_id` when it is truthy, otherwise `gradient_kb_<position>`,
    where the position counts all raw results.

Modules:

- `Wrappers` (wrappers.dfy): `Option` (Python `None` versus a value), `Result` (a value or a
  raised error), and `Field` (an attribute that may be missing, as `hasattr` sees it). A raw
  result's attribute can therefore be missing (`Absent`), present but `None`
  (`Present(None)` / `Present(PyNone)`), or present with a value.
- `PyValues` (py_values.dfy): the Python values that can sit in metadata, their truthiness,
  `str()`, and the decimal rendering of integers together with its inverse.
- `FilterMap` (filter_map.dfy): a one-pass filter-and-map over a sequence, where each step also
  sees the item's position, with its shape lemmas.
- `KBResults` (kb_results.dfy): the normaliser as specification functions (`ConvertResult` for
  one result, `Normalize` for a response) and the lemmas stating what it promises.
- `GradientRetriever` (gradient_retriever.dfy): the retriever as a class holding its five
  settings. `Create` models the validating constructor. `ConvertToNodes` is the imperative loop,
  proved equal to `Normalize`. `Retrieve` models the synchronous retrieval around a response
  supplied as a parameter.
- `KBScenarios` (kb_scenarios.dfy): the normaliser on the situations the unit tests describe.

Two behaviours of the code deserve mention:

- The id is read from the *merged* metadata. So a `chunk_id` in the result's extra metadata
  overrides the `chunk_id` attribute. It also names the node when the attribute is missing.
- Text that is present but `None` is dropped, like missing or empty text.

## Model

| member | source | states |
|---|---|---|
| `GradientRetriever.CheckConfig` | llama_index/retrievers/digitalocean/gradient/base.py:63-66 | construction is accepted exactly when both the knowledge-base id and the token are neither None nor empty; a bad id is reported first, with its ValueError message, and a bad token is reported only when the id is fine |
| `GradientRetriever.Create` | llama_index/retrievers/digitalocean/gradient/base.py:63-72 | a failed check raises that ValueError and builds nothing; otherwise a fresh retriever stores the id, token, result count, base URL and timeout unchanged, with no further check; the result count, base URL and timeout default to 5, None and 60.0 |
| `GradientRetriever.GradientKBRetriever.constructor` | llama_index/retrievers/digitalocean/gradient/base.py:68-72 | the five settings are stored as given, and the stored id and token are non-empty |
| `GradientRetriever.GradientKBRetriever.BuildMetadata` | llama_index/retrievers/digitalocean/gradient/base.py:118-135 | the dictionary built by key assignments and `update` equals the merged metadata of the result |
| `GradientRetriever.GradientKBRetriever.PickScore` | llama_index/retrievers/digitalocean/gradient/base.py:137-142 | the score assigned step by step equals the specified score of the result |
| `GradientRetriever.GradientKBRetriever.BuildNode` | llama_index/retrievers/digitalocean/gradient/base.py:118-152 | for a result with text, the node built is the one the specification gives for that result at that position |
| `GradientRetriever.GradientKBRetriever.ConvertToNodes` | llama_index/retrievers/digitalocean/gradient/base.py:94-155 | the loop with `continue` and `append` returns exactly the normalisation of the response |
| `GradientRetriever.GradientKBRetriever.Retrieve` | llama_index/retrievers/digitalocean/gradient/base.py:157-177 | the remote call is asked for the stored knowledge base, the stored result count and the query, and the nodes returned are the normalisation of its response |
| `KBResults.ResultsOf` | llama_index/retrievers/digitalocean/gradient/base.py:105-108 | a response without `results`, or with `results` None, walks no results; otherwise the given results are walked as they are |
| `KBResults.TextOf` | llama_index/retrievers/digitalocean/gradient/base.py:109-116 | the text is non-empty exactly when `text_content` exists, is not None and is not empty, and it is then that string unchanged |
| `KBResults.ExtractedMetadata` | llama_index/retrievers/digitalocean/gradient/base.py:118-131 | only `document_id`, `chunk_id` and `source` can appear; each is a key exactly when the result has that attribute, holding its value even when the value is None |
| `KBResults.ExtraMetadata` | llama_index/retrievers/digitalocean/gradient/base.py:133-135 | the extra metadata is merged, as the whole dictionary, exactly when the attribute exists and is not None; otherwise nothing is merged (an empty dictionary adds nothing either way) |
| `KBResults.MergedMetadata` | llama_index/retrievers/digitalocean/gradient/base.py:118-135 | the merged keys are exactly the extracted keys together with the extra keys |
| `KBResults.MergedMetadataContents` | llama_index/retrievers/digitalocean/gradient/base.py:118-135 | every extra key is present with the extra value, so it wins a collision; an identifying key the extra metadata does not override is present exactly when the attribute exists, with its value; there are no other keys |
| `KBResults.ScoreOf` | llama_index/retrievers/digitalocean/gradient/base.py:137-142 | an existing `score` decides, and None there gives 1.0 without falling through to `relevance_score`; otherwise an existing `relevance_score` decides the same way; with neither the score is 1.0 |
| `KBResults.FallbackId` | llama_index/retrievers/digitalocean/gradient/base.py:148 | the synthetic id starts with `gradient_kb_` followed by more characters |
| `KBResults.FallbackIdDecodes` | llama_index/retrievers/digitalocean/gradient/base.py:148 | what follows the prefix is the decimal rendering of the position, and it reads back as that position |
| `KBResults.FallbackIdInjective` | llama_index/retrievers/digitalocean/gradient/base.py:148 | two positions with the same synthetic id are the same position |
| `KBResults.NodeId` | llama_index/retrievers/digitalocean/gradient/base.py:148 | `str()` of the metadata's `chunk_id` when it is present and truthy, the synthetic id of the position otherwise |
| `KBResults.NodeIdSources` | llama_index/retrievers/digitalocean/gradient/base.py:126-148 | a truthy extra-metadata `chunk_id` names the node over the attribute; the attribute names it when the extra metadata has none; a missing or falsy `chunk_id` (None, empty, ...) gives the synthetic id, including a falsy extra-metadata `chunk_id` that hides a truthy attribute |
| `KBResults.ConvertResult` | llama_index/retrievers/digitalocean/gradient/base.py:108-152 | a raw result gives a node exactly when it has text |
| `KBResults.Normalize` | llama_index/retrievers/digitalocean/gradient/base.py:103-106 | a response without `results`, or with `results` None or empty, gives no nodes; there are never more nodes than raw results |
| `KBResults.NormalizeIsFilterMap` | llama_index/retrievers/digitalocean/gradient/base.py:108-155 | the nodes correspond one to one and in order to the raw results that have text (all of them, at increasing positions); each node has its result's text, merged metadata and score, and the id from its position in the whole raw sequence, skipped entries included |
| `KBResults.FallbackIdsDistinct` | llama_index/retrievers/digitalocean/gradient/base.py:108-148 | nodes without a usable `chunk_id` never share an id |
| `FilterMap.FilterMapPrefix` | llama_index/retrievers/digitalocean/gradient/base.py:108-153 | a pass that skips some items and appends one output for each of the others produces at most as many outputs as items |
| `FilterMap.KeptPositions` | llama_index/retrievers/digitalocean/gradient/base.py:108-116 | the positions of the kept items are increasing, in range, and include every kept item |
| `FilterMap.FilterMapShape` | llama_index/retrievers/digitalocean/gradient/base.py:108-153 | output k is the step's result on the k-th kept item, at that item's own position |
| `FilterMap.FilterMapKeepsAll` | llama_index/retrievers/digitalocean/gradient/base.py:108-153 | when no item is skipped, output k comes from item k |
| `PyValues.Truthy` | llama_index/retrievers/digitalocean/gradient/base.py:148 | None, False, 0 and the empty string are falsy; a non-empty string and a non-zero integer are truthy |
| `PyValues.StrOf` | llama_index/retrievers/digitalocean/gradient/base.py:148 | `str()` leaves a string unchanged, gives `None` for None, and renders a non-negative integer as digits that read back as it |
| `PyValues.NatToString` | llama_index/retrievers/digitalocean/gradient/base.py:148 | the rendering of a position is a non-empty string of digits without a leading zero |
| `PyValues.DigitsValueOfNatToString` | llama_index/retrievers/digitalocean/gradient/base.py:148 | reading the decimal rendering back gives the number |
| `PyValues.NatToStringInjective` | llama_index/retrievers/digitalocean/gradient/base.py:148 | distinct numbers render differently |
| `PyValues.IntToString` | llama_index/retrievers/digitalocean/gradient/base.py:148 | `str()` of an integer is non-empty and starts with a minus sign exactly for a negative number |
| `KBScenarios.EveryTextKeptInOrder` | tests/test_gradient_retriever.py:108-140 | when every raw result has text, there are as many nodes as results and node k comes from result k, which keeps order and scores |
| `KBScenarios.BasicRetrieval` | tests/test_gradient_retriever.py:40-86 | the fully populated result gives one node with its text, score 0.95, id `chunk-456`, and metadata holding the three attributes and `page` |
| `KBScenarios.MultipleResults` | tests/test_gradient_retriever.py:108-140 | three results give three nodes in order with scores 0.9, 0.8 and 0.7 and ids `chunk-0` to `chunk-2` |
| `KBScenarios.NoneMetadataValues` | tests/test_gradient_retriever.py:176-208 | attributes holding None are stored as None, metadata None adds nothing, and the id falls back to `gradient_kb_0` |
| `KBScenarios.MissingScore` | tests/test_gradient_retriever.py:210-239 | a result with neither score attribute scores 1.0 (the default; the test's mock reaches 1.0 through `relevance_score` instead) |
| `KBScenarios.SkippedResultKeepsPositions` | llama_index/retrievers/digitalocean/gradient/base.py:108-148 | after a result with empty text, the next two results are named `gradient_kb_1` and `gradient_kb_2` |

## Left out

- The `_client` and `_async_client` properties build clients of the external Gradient SDK, which this model cannot see.
- `GradientRetriever.GradientKBRetriever.Retrieve`: the remote call is not modelled. Its response is a parameter, and transport errors raised by the SDK are not modelled.
- `_aretrieve` has the same contract as `_retrieve`. It differs only in awaiting the remote call, and asynchronous I/O is not modelled.
- The import guard for the `gradient` package only checks the runtime environment.
- `BaseRetriever`, `TextNode`, `NodeWithScore` and `QueryBundle` are library classes that this model cannot see. A node is the plain record `Node(text, metadata, score, id)`, and the query is a string. The `**kwargs` passed on to `BaseRetriever` are not modelled.
- `KBResults.ScoreOf`: scores are taken as numbers already. `float()` is the identity on them, with no floating-point rounding. Its conversion of strings or other objects, and the errors it raises for them, are not modelled.
- `KBResults.ExtraMetadata`: the extra metadata is assumed to be a dictionary. A truthy non-dictionary value, which `update` would reject or read pair by pair, is not modelled.
- `KBResults.TextOf`: `text_content` is assumed to be a string or None. A non-string truthy value would be stored as the text unchanged, and that is not modelled.
- Values stored in metadata other than None, booleans, integers and strings are described only by what `str()` and `bool()` answer for them. Floats are among them, since their `str()` rendering is not modelled.
- The unit tests use mock objects that answer every attribute. The scenario lemmas model only the attributes that the tests set.
- The integration tests need network access to a live knowledge base.
