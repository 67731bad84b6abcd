# Card recommendation chatbot: a Dafny model of its core

The chatbot answers a card-recommendation question with an OpenAI chat model
grounded on a Chroma vector store of the card catalog, shows the image and
application links of the cards named in the reply, and logs each exchange to a
Google Sheet. This project models the parts of it that are decision and string
logic, and proves what they promise:

- `CardIds` (`card_ids.dfy`): `extract_card_ids`, Python's
  `re.findall(r"카드ID\s*:\s*(\d+)", text)`. A declarative predicate `IsMatch`
  says what one match of the pattern is. The scanner (`SkipWhile`, `MatchAt`,
  `Scan`) is proved sound against it. It is also proved exact: a match found at
  a position is the only one there. And it is proved complete: every match of
  the pattern is reported or starts inside a reported match, which is the
  leftmost, non-overlapping semantics of `findall`. Python's `\s` and `\d` are
  Unicode-aware, so they are a parameter (`CharClasses`). The exactness and
  completeness results assume `Sane`, which holds of Python's classes: a colon
  is not white space, and no character is both a digit and white space.
- `LogRow` (`log_row.dfy`): the nine-cell row that `append_log_to_sheet`
  builds. Missing keys get their defaults, and the two id lists are joined with
  `", "`. The partner of the join is Python's `split(", ")`. Splitting the
  joined string gives back any list of non-empty, comma-free pieces, so the
  cell string built for the ids of a reply splits back into those ids.
- `LinkDb` (`link_db.dfy`): the `LINK_DB` comprehension, keyed by
  `str(card_id)` (Python's decimal rendering of integers, proved injective
  through a parse round trip; a later item with the same key wins), and the
  `show_card_details` loop. The loop displays one panel per known id, in input
  order, skips unknown ids and returns `[]`.
- `CardRag` (`card_rag.dfy`): the load-or-rebuild decision of
  `get_or_create_vectorstore`, and the projection loop of `search_card`. The
  file system, Chroma, the embedder, the text splitter, `str` on a catalog
  record are fields of a `Backend` value, and the retriever is the parameter
  `retrieve` of `SearchCard`. The branch
  structure and the data passed between these collaborators are what is
  verified.

`Common` (`common.dfy`) holds `Option` (a missing dictionary key) and `Result`
(a call that raised).

Facts about the code that shape the model:
- The text splitter is called with the library's defaults, so it is a
  parameter and no chunk-length or chunk-fidelity property is claimed.
- Each catalog record is serialised with `str(dict)`, which does not fail.
- An exception from `OpenAIEmbeddings(...)`, which runs before any branch, or
  from `Chroma.from_documents` on a rebuild reaches the caller. The model
  passes it on as `Err`, and `search_card` passes it on too.
- A path that exists but is not a directory is rebuilt like a missing one.
- When the collection count is positive, the code counts a second time for
  its message, inside the `try`; if that call raises, the store is rebuilt.
- The rebuild re-reads `cards_info.json`; `catalog` stands for what that read
  returns.

## Model

| member | source | states |
|---|---|---|
| `CardIds.SkipWhile` | chatbot/card_gpt.py:79 | a greedy `\s*` or `\d+` run: it stops at the first character outside the class, and everything it skips is in the class |
| `CardIds.SkipWhileUnique` | chatbot/card_gpt.py:79 | the greedy run is the only run of the class that ends before a character outside it |
| `CardIds.MatchAt` | chatbot/card_gpt.py:79 | a match the scanner reports at `i` starts at `i` and is a match of the pattern (`IsMatch`) |
| `CardIds.MatchAtExact` | chatbot/card_gpt.py:79 | given `Sane`, any match of the pattern at `i` is exactly what the scanner reports there, so there is one match per position and whitespace may surround the colon |
| `CardIds.Scan` | chatbot/card_gpt.py:79 | every reported match is a match of the pattern at or after `pos`, and the matches are left to right without overlap |
| `CardIds.ScanComplete` | chatbot/card_gpt.py:79 | given `Sane`, every match of the pattern at or after `pos` is reported or starts inside a reported match: leftmost non-overlapping `findall` |
| `CardIds.ExtractCardIds` | chatbot/card_gpt.py:77-79 | every returned id is a non-empty string of digit characters |
| `CardIds.ExtractedIdsAreMaximalRuns` | chatbot/card_gpt.py:79 | id k is the digit run of the k-th match, and the character after it is not a digit (`\d+` is greedy) |
| `CardIds.NoMarkerNoIds` | chatbot/card_gpt.py:79 | a text without `카드ID` yields no ids |
| `CardIds.NoMatchFrom` | chatbot/card_gpt.py:79 | no match is reported past the last occurrence of the marker |
| `CardIds.ScanAtMostMarkers` | chatbot/card_gpt.py:79 | the scan from `pos` reports at most as many matches as there are markers from `pos` on |
| `CardIds.IdsAtMostMarkers` | chatbot/card_gpt.py:79 | there are never more ids than occurrences of `카드ID` |
| `CardIds.ExampleOneId` | chatbot/card_gpt.py:79 | `카드ID: 12` yields `["12"]` |
| `CardIds.ExampleNoColon` | chatbot/card_gpt.py:79 | `카드ID 7` (no colon) yields nothing |
| `LogRow.Join` | chatbot/card_gpt.py:54-55 | joining no ids gives the empty string; joining one id gives that id |
| `LogRow.Split` | chatbot/card_gpt.py:54-55 | the inverse reading of a joined cell always has at least one piece |
| `LogRow.SplitJoin` | chatbot/card_gpt.py:54-55 | splitting a join of comma-free pieces on `", "` gives the pieces back, in order |
| `LogRow.JoinedReadsBack` | chatbot/card_gpt.py:54-55 | a joined list of non-empty comma-free pieces reads back as the same list, the empty list included |
| `LogRow.BuildRow` | chatbot/card_gpt.py:48-58 | the row always has nine cells: an optional timestamp, six text cells, a number, and a text cell |
| `LogRow.EmptyEntryRow` | chatbot/card_gpt.py:48-58 | example: an entry without keys gives `None`, six empty strings, `0` and an empty string |
| `LogRow.MissingFieldsGetDefaults` | chatbot/card_gpt.py:49-57 | each missing key (or missing `user_info`) gives its default in its column, whatever the other keys hold |
| `LogRow.PresentFieldsInPlace` | chatbot/card_gpt.py:48-58 | each present key lands in its own column, in the order timestamp, name, age group, occupation, query, card ids, clicked cards, duration, A/B version; the two lists are joined with `", "`, and a one-element list is logged as that element |
| `LogRow.ListColumnsReadBack` | chatbot/card_gpt.py:54-55 | the card-id and clicked-card cell strings, split on `", "`, give back the entry's lists, contents and order kept |
| `LogRow.ExtractedIdsReadBack` | chatbot/card_gpt.py:179-200 | the card-id cell string built for the ids extracted from a reply splits on `", "` back into exactly those ids |
| `LinkDb.DecimalString` | chatbot/card_gpt.py:74 | `str(n)` of a natural number is a non-empty string of ASCII digits without a leading zero |
| `LinkDb.DecimalRoundTrip` | chatbot/card_gpt.py:74 | reading back `str(n)` as a number gives `n` |
| `LinkDb.Key` | chatbot/card_gpt.py:74 | `str(card_id)`: a string id is its own key; the key of an integer id is non-empty, starts with `-` exactly when the id is negative, and is followed by the decimal digits |
| `LinkDb.IntKeysInjective` | chatbot/card_gpt.py:74 | two numeric card ids have the same key only when they are equal |
| `LinkDb.BuildLinkDb` | chatbot/card_gpt.py:74 | the table's keys are exactly the keys of the items, and each key maps to an item of the list with that key |
| `LinkDb.LastOccurrenceWins` | chatbot/card_gpt.py:74 | for duplicate keys, the last item with the key is the one stored |
| `LinkDb.RenderPanel` | chatbot/card_gpt.py:89-113 | an image part appears exactly when the item has a non-empty image path, and its path is the resolved item path; the image is shown when that file exists and a warning is shown when it does not; a link is offered exactly when the item has a non-empty link, and it is that link |
| `LinkDb.Known` | chatbot/card_gpt.py:84-88 | the ids that are kept are all in the table, and there are no more of them than input ids |
| `LinkDb.KnownAppend` | chatbot/card_gpt.py:84-88 | skipping unknown ids commutes with concatenation, so the input order is kept |
| `LinkDb.KnownCounts` | chatbot/card_gpt.py:84-88 | each known id is kept as often as it occurs, and each unknown id is dropped |
| `LinkDb.ShowCardDetails` | chatbot/card_gpt.py:82-115 | one panel per known id, in input order, showing that id's table entry; unknown ids are skipped; the result is always `[]` |
| `CardRag.Serialize` | chatbot/card_rag.py:54 | one text per catalog record, `str(record)`, in catalog order |
| `CardRag.Rebuild` | chatbot/card_rag.py:47-64 | the rebuild path hands the splitter the serialised catalog and returns the result of the fresh build, with no count check |
| `CardRag.GetOrCreateVectorstore` | chatbot/card_rag.py:18-64 | the persisted collection is opened exactly when the embedder was created and the path is an existing directory |
| `CardRag.EmbedderFailurePropagates` | chatbot/card_rag.py:21 | an exception of the embedder's construction reaches the caller, before anything is opened or built |
| `CardRag.ReusesNonEmptyStore` | chatbot/card_rag.py:27-38 | a directory whose collection opens with count > 0, and counts again without raising, yields that store, with no rebuild |
| `CardRag.RebuildsEmptyStore` | chatbot/card_rag.py:34-64 | a collection that opens but is empty is never returned; the fresh build is |
| `CardRag.RebuildsAfterOpenFailure` | chatbot/card_rag.py:28-64 | an exception while opening or counting, the second count included, is swallowed and the store is rebuilt |
| `CardRag.RebuildsWithoutOpeningWhenNoDirectory` | chatbot/card_rag.py:23-45 | when the path is missing or not a directory, nothing is opened and the store is rebuilt |
| `CardRag.RebuildIffNotReusable` | chatbot/card_rag.py:21-45 | once the embedder exists, the function rebuilds exactly when no non-empty persisted collection opens and counts, and otherwise returns the opened store |
| `CardRag.RebuildUsesWholeCatalog` | chatbot/card_rag.py:53-64 | a rebuild hands the splitter `str(record)` for each record in catalog order, and returns the fresh build without a count check |
| `CardRag.SearchCardWithDefaults` | chatbot/card_gpt.py:162 | `search_card(question)` as the chat flow calls it: the result is the text of each retrieved document, in order, for the store at `./Chroma`, collection `card_info`; exceptions pass through |
| `CardRag.SearchCard` | chatbot/card_rag.py:67-76 | the result has one entry per retrieved document, entry i being the text of document i; the store comes from the same directory and collection; embedder, build and retriever exceptions pass through |

## Left out

- Streamlit UI and session state (`st.*`, chat transcript, radio buttons, `st.session_state`): rendering and framework glue. The panels of `ShowCardDetails` record what would be displayed.
- Google Sheets authentication, the `append_row` call and the `except` that swallows its failures: network I/O. Only the row is modelled.
- The re-parsing of `value_input_option="USER_ENTERED"`: the sheet reads each cell as typed input, so a lone id `"012"` is stored as the number 12 and the ISO timestamp as a date. The read-back lemmas speak of the cell strings the code builds, not of what the sheet stores.
- `LogRow.BuildRow`: the entry fields are typed (strings, string lists, a number), so the exceptions Python would raise for other values inside the row expression (a `user_info` that is not a dict, a non-string in a joined list) do not arise. Python's integer default `0` for the duration is the number `0.0`.
- The LangChain chat chain, prompts, streaming, conversation memory and `conversation_with_memory`: remote model calls. Only their data flow from extracted ids to the log row is stated, in `ExtractedIdsReadBack`.
- The A/B coin flip and the timestamps: nondeterministic inputs. They enter the model as fields of the log entry.
- File reads (`cards_link_image.json`, `cards_info.json`) and the image path handling (`os.path.join`, `normpath`, `exists`): file-system I/O. The loaded data are parameters; path resolution and existence are the parameters `resolve` and `fileExists`.
- The text splitter's policy and chunk sizes, the OpenAI embeddings, Chroma persistence, similarity ranking and the retriever's default `k`: library internals. They are fields of `Backend` and the parameter `retrieve`, with no property claimed.
- The `print` messages of `get_or_create_vectorstore` and the error message printed by `append_log_to_sheet`: console output.
- `CardIds.MatchAtExact` and `CardIds.ScanComplete`: they assume `Sane` of the character classes instead of fixing Python's Unicode tables, because the tables are not modelled.
- `LinkDb.BuildLinkDb` / `LinkDb.RenderPanel`: the link items are typed: every item has a `card_id`, and `image`/`request_pc`/`request_m` are strings or missing, so the `KeyError` at load for an item without `card_id` and the `AttributeError` in `show_card_details` for a non-string image (which also skips that exchange's log row) do not arise.
- `card_id` values other than integers and strings: `str` of a float (`"12.0"`) or of a boolean (`"True"`) is not modelled.
- The order of keys in `LINK_DB`: a Dafny `map` has none, and the table is only looked up by key.
- `str(cid)` in `show_card_details`: the ids are already strings, so it is the identity.
- The default arguments of `get_or_create_vectorstore` are not used by any caller in the chat flow; those of `search_card` are the constants `DefaultPersistDirectory` and `DefaultCollectionName`, used by `SearchCardWithDefaults`.
