# On-device SLM assistant: conversation and context-budget core in Dafny

This project models the logic at the centre of a local chat assistant that
runs small language models through an Ollama service:

- **The conversation store** (`backend/conversation_manager.py`).
  `ConversationManager` keeps conversations by id. Creating a conversation
  seeds it with one system message. Each appended message adds its token
  count to a running total. The store also produces the OpenAI-style
  transcript for the model. Trimming drops the oldest non-system messages
  until the stored total is within a target, but keeps at least two of
  them. The store can list conversations (newest update first), delete
  and retitle them, and export and import them in dictionary form.
- **Token budgeting** (`examples/token_management.py`,
  `examples/hello_world.py`):
  - the four-characters-per-token estimate;
  - a model's context limit, read from the `num_ctx` line of its modelfile
    or from a first-match table of name patterns, else 4096;
  - the 80% "fits" rule;
  - prompt truncation that keeps the head or the tail;
  - the truncation decision taken before a generate call.
- **The model configuration table** (`config/model_manager.py`). It
  supports:
  - a filtered and stably sorted listing, and lookup by id;
  - a category view and the default model;
  - enabling and disabling the first matching entry;
  - adding an entry (duplicate ids are refused) and removing every entry
    with an id;
  - the configuration exported to the web frontend.
- **Few-shot style prompting** (`examples/style_training.py`). Writing
  samples accumulate. The prompt shows the first few samples as numbered
  examples, then the task. The style analysis counts words and sentences.

Layout:

| file | module | contents |
|---|---|---|
| `wrappers.dfy` | `Wrappers` | `Option` and `Result` |
| `text.dfy` | `Text` | the Python string operations the core relies on, as functions over `seq<char>` (see below) |
| `sorting.dfy` | `Sorting` | a stable sort by a comparator, modelling Python's `list.sort`: proved to permute, to sort, and to keep equal keys in their original order |
| `service.dfy` | `Service` | what an HTTP call to the model service yielded |
| `conversations.dfy` | `Conversations` | the messages, conversations and their dictionary form; `class ConversationManager` |
| `token_management.dfy` | `TokenManagement` | the token manager, and `GenerateWithTokenCheck` |
| `hello_world.dfy` | `HelloWorld` | the simple client's table, lookup and check |
| `model_configs.dfy` | `ModelConfigs` | `class ModelConfigManager` |
| `style_training.dfy` | `StyleTraining` | `class StyleTrainer` |

`Text` models these Python string operations:

- `in` on strings;
- `split(sep)` and `split()`;
- `strip()`;
- `lower()`, for ASCII only;
- `int()` and `str()` on integers;
- slicing with negative bounds.

State that the source updates in place is held in classes:

- `ConversationManager` holds a `map` from id to conversation. Beside it is
  the sequence of keys in dictionary insertion order, which fixes the tie
  order in `list_conversations`.
- `ModelConfigManager` holds the `available_models` list as a `seq` of
  entries, plus the default model, the `sort_by` setting and the
  categories.
- `StyleTrainer` holds the list of samples.

Methods with the source's loops carry the loop invariants that connect
them to specification functions. For example, the `while` loop of
`trim_conversation` (`PopOldest`) is proved to remove exactly `TrimCount`
messages, so `TrimConversation` computes `Trimmed`. `Trimmed`'s properties
are lemmas.

Fixed-point factors are exact integer comparisons:

| source | model |
|---|---|
| `total <= max * 0.75` | `4 * total <= 3 * max` |
| `est < limit * 0.8` | `5 * est < 4 * limit` |
| `int(limit * 0.6)` | three fifths truncated toward zero |

Clocks and `uuid4` values are parameters:

- a clock reading is an `Instant` with an order tick and the minute text
  used in default titles;
- a fresh id is supplied by the caller and required to be new.

Two behaviours of the program are worth knowing:

- The estimate is 0 for every text shorter than four characters
  (`TokenManagement.EstimateZero`).
- Trimming triggers on the stored total and always keeps the two most
  recent non-system messages. Afterwards all system messages come first,
  so a system message that was in the middle moves to the front
  (`Conversations.TrimRemovesOldestOthers`).

## Model

| member | source | states |
|---|---|---|
| Conversations.NewConversation | on-device-slm/backend/conversation_manager.py:94-127 | the new conversation: no tokens counted; exactly one message, a system message whose non-empty content is the given prompt, or the default prompt when that is missing or empty; title "Chat <minute>" when none is given; created and updated now |
| Conversations.NewConversationConsistent | on-device-slm/backend/conversation_manager.py:105-124 | a new conversation's total equals the sum of its messages' token counts |
| Conversations.ConversationManager.constructor | on-device-slm/backend/conversation_manager.py:75-76 | the store starts empty |
| Conversations.ConversationManager.CreateConversation | on-device-slm/backend/conversation_manager.py:86-127 | the returned id was not stored before; exactly that id is added, holding NewConversation; every other conversation is unchanged |
| Conversations.ConversationManager.AddMessage | on-device-slm/backend/conversation_manager.py:129-159 | an unknown id gives NotFound and changes nothing; otherwise exactly one message is appended after the unchanged earlier ones, the total grows by the token count only when that is truthy, the update time is set, and no other conversation changes |
| Conversations.AppendConsistent | on-device-slm/backend/conversation_manager.py:152-157 | appending as add_message does keeps total == sum of the messages' counts |
| Conversations.ConversationManager.GetConversationForModel | on-device-slm/backend/conversation_manager.py:161-176 | an unknown id gives NotFound; otherwise one turn per message, same length and order, role and content copied |
| Conversations.ConversationManager.TrimConversation | on-device-slm/backend/conversation_manager.py:178-209 | an unknown id gives NotFound and changes nothing; otherwise the loop's new state and count are exactly Trimmed of the old conversation, and no other conversation changes |
| Conversations.PopOldest | on-device-slm/backend/conversation_manager.py:197-203 | the loop removes exactly TrimCount of the oldest non-system messages, keeps the rest in order, and the running total drops by exactly what the removed ones counted |
| Conversations.TrimWithinTargetNoop | on-device-slm/backend/conversation_manager.py:185-189 | when the total is within the target (75% of max_tokens by default), trimming changes nothing and reports 0 |
| Conversations.TrimRemovesOldestOthers | on-device-slm/backend/conversation_manager.py:192-209 | the system messages are kept in order; the non-system messages left are the old ones minus the k oldest; the total drops by exactly what those k counted (None as 0); only messages and total change; over the target, all system messages come first |
| Conversations.TrimStops | on-device-slm/backend/conversation_manager.py:199-203 | afterwards the total is within the target, or at most two non-system messages remain; two are always kept if there were two; nothing is removed when there were fewer than two |
| Conversations.TrimMinimal | on-device-slm/backend/conversation_manager.py:199-203 | before every removal the total was still over the target, so no shorter trim would have done |
| Conversations.TrimCountUniform | on-device-slm/backend/conversation_manager.py:199-203 | with every non-system message counting w tokens and a target t, the number kept is at least 2, within the target unless exactly 2 are left, and maximal (one more would exceed t) unless nothing was removed |
| Conversations.TrimTenMessagesTo120 | on-device-slm/backend/conversation_manager.py:178-209 | a system message plus ten messages of 50 tokens, trimmed to 120: eight removed, the two most recent kept, total 100 |
| Conversations.TrimConsistent | on-device-slm/backend/conversation_manager.py:196-207 | trimming keeps total == sum of the messages' counts |
| Conversations.TrimCountStops | on-device-slm/backend/conversation_manager.py:199 | where the loop's count stops, the total is within the target or only two messages are left |
| Conversations.TrimCountMinimal | on-device-slm/backend/conversation_manager.py:199 | every removal the count includes happened with the total over the target and more than two messages left |
| Conversations.PartsSplit | on-device-slm/backend/conversation_manager.py:192-193 | the system and non-system filters split the messages: the lengths add up, and the two multisets add up to the whole |
| Conversations.CreditsOfParts | on-device-slm/backend/conversation_manager.py:192-193 | the token counts of the two parts add up to the whole |
| Conversations.MessageRoundTrip | on-device-slm/backend/conversation_manager.py:23-33 | from_dict(to_dict(m)) gives back m |
| Conversations.MessagesRoundTrip | on-device-slm/backend/conversation_manager.py:55-68 | decoding the encoded message list gives back the list |
| Conversations.ConversationRoundTrip | on-device-slm/backend/conversation_manager.py:49-69 | Conversation.from_dict(to_dict(c)) gives back c, messages included |
| Conversations.ConversationJsonFields | on-device-slm/backend/conversation_manager.py:51-61 | to_dict writes exactly the nine keys, each holding the corresponding field |
| Conversations.ConversationManager.GetConversation | on-device-slm/backend/conversation_manager.py:211-213 | present exactly when the id is stored, and then it is the stored conversation |
| Conversations.ConversationManager.ListConversations | on-device-slm/backend/conversation_manager.py:215-227 | one summary per stored conversation, ordered by update time descending, each the summary of a stored conversation with message_count its number of messages, and every stored id appears |
| Conversations.SortedValues | on-device-slm/backend/conversation_manager.py:226 | sorting the stored conversations newest first gives as many entries as there are conversations, in order, each a stored conversation, and every stored one appears |
| Conversations.ConversationManager.DeleteConversation | on-device-slm/backend/conversation_manager.py:229-234 | true exactly when the id was present; afterwards the id is gone and every other conversation is unchanged |
| Conversations.ConversationManager.UpdateConversationTitle | on-device-slm/backend/conversation_manager.py:236-242 | false and no change for an absent id; otherwise only that conversation's title and update time change |
| Conversations.ConversationManager.ExportConversation | on-device-slm/backend/conversation_manager.py:244-248 | present exactly when the id is stored, and from_dict of it recovers the stored conversation |
| Conversations.ConversationManager.ImportConversation | on-device-slm/backend/conversation_manager.py:250-254 | data from_dict rejects changes nothing; otherwise the decoded conversation is stored under its own id and that id is returned |
| Conversations.ConversationManager.ReimportExported | on-device-slm/backend/conversation_manager.py:244-254 | importing what export produced returns the same id and leaves the store exactly as it was |
| TokenManagement.EstimateTokens | on-device-slm/examples/token_management.py:26-28 | the estimate n is the number of whole four-character groups: 4n <= length < 4n + 4 |
| TokenManagement.EstimateMonotone | on-device-slm/examples/token_management.py:26-28 | a longer text never has a smaller estimate |
| TokenManagement.EstimateConcat | on-device-slm/examples/token_management.py:26-28 | estimate(a + b) is at least estimate(a) and at least estimate(b) |
| TokenManagement.EstimateZero | on-device-slm/examples/token_management.py:26-28 | the estimate is 0 exactly for texts shorter than four characters |
| TokenManagement.TableLimitSpec | on-device-slm/examples/token_management.py:59-64 | the limit is that of the first table entry, in table order, whose pattern occurs in the name, and 4096 when none does |
| TokenManagement.FirstNumCtxSpec | on-device-slm/examples/token_management.py:52-57 | the value comes from the first line that mentions num_ctx and whose last word parses as an integer; there is none exactly when no line qualifies, so unparsable lines are skipped |
| TokenManagement.ContextLimitFallback | on-device-slm/examples/token_management.py:43-64 | with no num_ctx in the modelfile and no matching pattern, an unknown model gets 4096 rather than failing |
| TokenManagement.KnownLimits | on-device-slm/examples/token_management.py:16-24 | with no model information: phi3:3.8b gets 4096, llama3.2:3b gets 8192, and an unlisted model gets the default |
| Text.ParseIntString | on-device-slm/examples/token_management.py:55 | int() reads back what str() writes for every integer, so a num_ctx line ending in a written integer yields that integer |
| TokenManagement.CheckPromptSize | on-device-slm/examples/token_management.py:66-77 | the estimate and the limit as computed above; fits iff the estimate is below 80% of the limit; tokens remaining is the limit minus the estimate (possibly negative) |
| TokenManagement.FitsLeavesHeadroom | on-device-slm/examples/token_management.py:74-76 | a prompt fits exactly when more than a fifth of the limit remains |
| TokenManagement.TruncateWithinBudget | on-device-slm/examples/token_management.py:81-84 | a prompt within the budget comes back unchanged |
| TokenManagement.TruncateKeepEnd | on-device-slm/examples/token_management.py:87-90 | over a positive budget and keeping the end: "..." and then the last 4*max_tokens characters, which is within the budget |
| TokenManagement.TruncateKeepStart | on-device-slm/examples/token_management.py:87-92 | over a positive budget and keeping the start: the first 4*max_tokens characters and then "...", which is within the budget |
| TokenManagement.TruncateZeroKeepEnd | on-device-slm/examples/token_management.py:87-90 | with a zero budget, `prompt[-0:]` is the whole prompt, so the result is "..." and then the whole prompt, longer than the prompt |
| TokenManagement.SafeLimit | on-device-slm/examples/token_management.py:116 | int(limit * 0.6): three fifths of the limit, truncated toward zero |
| TokenManagement.GenerateWithTokenCheck | on-device-slm/examples/token_management.py:100-141 | the token info is the prompt check; truncated iff the prompt did not fit; the final prompt is then the end-keeping truncation to 60% of the limit, and otherwise the prompt itself; the request carries the final prompt and num_predict only for a truthy max_tokens; the response is the answer text of a 200 reply; an exception is recorded as the error |
| TokenManagement.TruncatedPromptWithinSafeLimit | on-device-slm/examples/token_management.py:113-118 | when a prompt does not fit and 60% of the limit is positive, the prompt sent is within that 60% |
| Service.ResponseText | on-device-slm/examples/token_management.py:135-139 | an answer exists exactly for a status-200 reply, and it is the reply's response text when that is present |
| HelloWorld.GetTokenLimitSpec | on-device-slm/examples/hello_world.py:68-73 | the limit is that of the first entry, in order, whose pattern occurs in the lower-cased name, and 4096 when none does |
| HelloWorld.GetTokenLimitIgnoresCase | on-device-slm/examples/hello_world.py:71 | a name and its lower-cased form get the same limit |
| HelloWorld.Phi3GetsDefault | on-device-slm/examples/hello_world.py:14-20 | phi3:3.8b gets 4096 from this table; the token manager's table also gives it 4096, through its own entry |
| HelloWorld.Llama70bGetsDefault | on-device-slm/examples/hello_world.py:14-20 | llama3.1:70b matches no pattern of this table and gets 4096 |
| HelloWorld.CodellamaLimit | on-device-slm/examples/hello_world.py:14-20 | codellama:7b gets 16384, also when written CodeLlama:7B |
| HelloWorld.CheckPromptSize | on-device-slm/examples/hello_world.py:75-84 | tokens is the estimate of the prompt, limit is get_token_limit of the model, and it fits iff tokens is below 80% of the limit |
| ModelConfigs.ToConfig | on-device-slm/config/model_manager.py:12-24 | ModelConfig(**entry): the fields are copied; enabled defaults to true and priority to 1 when absent |
| ModelConfigs.EntryRoundTrip | on-device-slm/config/model_manager.py:140-151 | the dictionary add_model stores reads back as the model that was added |
| ModelConfigs.AnyContains | on-device-slm/config/model_manager.py:76 | true iff the id occurs in some element of the available list |
| ModelConfigs.SelectionSpec | on-device-slm/config/model_manager.py:67-80 | the kept models are exactly the entries passing both filters, and form a sub-multiset of the configured entries |
| ModelConfigs.SelectionKeepsExactly | on-device-slm/config/model_manager.py:70-77 | an entry is kept iff (enabled_only implies it is enabled, absent counting as enabled) and (with a list, its id occurs in some element); every kept model passes both filters |
| ModelConfigs.ArrangeSpec | on-device-slm/config/model_manager.py:82-89 | the sort only permutes; "priority" sorts by ascending priority and "name" by name, both stably; any other value keeps configuration order |
| Sorting.SortByStable | on-device-slm/config/model_manager.py:85-87 | sorting keeps elements with equal keys in their original relative order |
| ModelConfigs.ModelConfigManager.constructor | on-device-slm/config/model_manager.py:30-36 | the manager holds the loaded entries, default model, sort setting and categories |
| ModelConfigs.ModelConfigManager.GetAvailableModels | on-device-slm/config/model_manager.py:64-89 | the loop's result is the selection in the configured sort order, and a permutation of the selection |
| ModelConfigs.ModelConfigManager.GetEnabledModels | on-device-slm/config/model_manager.py:91-93 | every model returned is enabled, and every enabled entry is returned |
| ModelConfigs.ModelConfigManager.GetModelById | on-device-slm/config/model_manager.py:95-100 | the first entry with an equal id, whether enabled or not; None when no entry has it |
| ModelConfigs.FirstIndex | on-device-slm/config/model_manager.py:97-98 | the position of the first entry with the id, and none exactly when no entry has it |
| ModelConfigs.ModelConfigManager.GetModelsByCategory | on-device-slm/config/model_manager.py:102-105 | exactly the enabled models of that category, in listing order |
| ModelConfigs.InCategory | on-device-slm/config/model_manager.py:105 | the result holds exactly the models of the given category |
| ModelConfigs.ModelConfigManager.GetDefaultModel | on-device-slm/config/model_manager.py:107-109 | the configured default, else llama3.2:3b |
| ModelConfigs.ModelConfigManager.SetDefaultModel | on-device-slm/config/model_manager.py:111-116 | an id not in the table is refused and nothing changes; a known id becomes the default and the result is the save outcome |
| ModelConfigs.ModelConfigManager.SetModelEnabled | on-device-slm/config/model_manager.py:126-132 | an absent id gives false and no change; otherwise only the first entry with the id gets the flag; the result is the save outcome, and the change stays even when saving fails |
| ModelConfigs.ModelConfigManager.EnableModel | on-device-slm/config/model_manager.py:118-120 | _set_model_enabled with true |
| ModelConfigs.ModelConfigManager.DisableModel | on-device-slm/config/model_manager.py:122-124 | _set_model_enabled with false |
| ModelConfigs.SetEnabledIsSeen | on-device-slm/config/model_manager.py:126-132 | after the change, lookup by the id finds the same entry with the new flag, and every other entry is unchanged |
| ModelConfigs.ModelConfigManager.AddModel | on-device-slm/config/model_manager.py:134-154 | a known id gives false and no change; otherwise exactly one entry is appended at the end, and the result is the save outcome |
| ModelConfigs.AddedModelIsFound | on-device-slm/config/model_manager.py:137-153 | after an add, lookup by the new id finds the appended entry, which reads back as the given model |
| ModelConfigs.ModelConfigManager.RemoveModel | on-device-slm/config/model_manager.py:156-166 | every entry with the id is removed, the others keep their order; true iff something was removed and saving succeeded |
| ModelConfigs.RemoveAllSpec | on-device-slm/config/model_manager.py:158-164 | the entries kept are exactly those with another id, and the list shrinks iff the id was present |
| ModelConfigs.RemoveAllConcat | on-device-slm/config/model_manager.py:159-162 | removal works piecewise over a concatenation, so the kept entries keep their relative order |
| ModelConfigs.RemoveAllAbsent | on-device-slm/config/model_manager.py:159-166 | with no entry of that id the list is unchanged |
| ModelConfigs.RemovedModelIsGone | on-device-slm/config/model_manager.py:156-162 | after removal, lookup by the id finds nothing |
| ModelConfigs.ModelConfigManager.GetCategories | on-device-slm/config/model_manager.py:168-170 | the configured categories |
| ModelConfigs.ModelConfigManager.ExportFrontendConfig | on-device-slm/config/model_manager.py:205-222 | one frontend entry per enabled model, in listing order, with its id, name, description, category and install command; the default model; the categories |
| StyleTraining.StyleTrainer.constructor | on-device-slm/examples/style_training.py:12-15 | no samples at first |
| StyleTraining.StyleTrainer.LoadWritingSamples | on-device-slm/examples/style_training.py:24-38 | a missing directory gives false and no change; otherwise the accepted samples are appended after the earlier ones, which are kept, and the result says whether any sample is held |
| StyleTraining.AcceptedShape | on-device-slm/examples/style_training.py:30-37 | there are no more samples than files, and each sample taken from the files is non-empty and already stripped |
| StyleTraining.AcceptedSpec | on-device-slm/examples/style_training.py:30-37 | a sample is loaded exactly when some file's stripped contents are non-empty and the sample holds that file's name and stripped contents (`Admit`) |
| Text.Strip | on-device-slm/examples/style_training.py:32 | strip(): the input with a whitespace-only prefix and a whitespace-only suffix cut off, neither end of the result whitespace, so exactly the longest such cut; empty exactly when the input is all whitespace |
| StyleTraining.StyleTrainer.CreateStylePrompt | on-device-slm/examples/style_training.py:40-57 | the loop builds exactly StylePrompt of the stored samples |
| StyleTraining.StylePromptShape | on-device-slm/examples/style_training.py:40-57 | with no samples, the task unchanged; otherwise it starts with the header, ends with "RESPONSE:" and contains "Now write in the same style for this task: " + task |
| StyleTraining.PromptShowsFirstSamples | on-device-slm/examples/style_training.py:46-52 | the prompt shows the first slice-bounded num_examples samples (min(num_examples, count) for a non-negative count) in stored order, and each shown sample i appears as "EXAMPLE i+1" |
| StyleTraining.ExampleIncluded | on-device-slm/examples/style_training.py:51-52 | every sample's block, numbered by its position from 1, occurs in the examples |
| StyleTraining.ExamplesPrefix | on-device-slm/examples/style_training.py:51-52 | the examples for the first k samples begin the examples for them all |
| StyleTraining.StyleTrainer.GenerateWithStyle | on-device-slm/examples/style_training.py:59-82 | the prompt is the style prompt with three examples followed by the word-budget line; top_p 0.9, top_k 40, num_predict twice the budget, the temperature passed through; the answer only for a status-200 reply |
| StyleTraining.AnalyzeStyle | on-device-slm/examples/style_training.py:84-94 | sentence_count is one more than the number of full stops, so at least 1; word_count is the number of whitespace-separated words, which is the number of word beginnings, and 0 exactly when the text is all whitespace |
| Text.SplitCount | on-device-slm/examples/style_training.py:86 | split on a separator gives one more piece than there are separators |
| Text.SplitJoin | on-device-slm/examples/style_training.py:86 | joining the pieces with the separator gives back the text |
| Text.WordsSpec | on-device-slm/examples/style_training.py:87 | split() yields non-empty whitespace-free words whose concatenation is the text without its whitespace |
| Text.WordsCount | on-device-slm/examples/style_training.py:87 | split() yields exactly as many words as there are word beginnings: non-whitespace characters at the start of the text or right after whitespace |

## Left out

- Everything around the core is left out: the installers, setup and verification scripts, the launcher, `backend/main.py` (web routing), `config/training_config.py` (constants only), the demos' `main` functions, `demonstrate_token_limits`, `create_sample_directory`, and every `print`.
- HTTP calls are not modelled. `is_running`, `list_models`, `generate`, `chat`, `get_model_info` and the generate calls are represented by their outcome: a status and a response text, or an exception message (`Service.Reply`). The modelfile text is a parameter, `""` when the service reported nothing.
- TokenManagement.GenerateWithTokenCheck: a 200 reply whose JSON has `"response": null` yields None in the program; the model gives the missing-key default `""` in that case.
- Service.ResponseText: the same drop. For a 200 reply with `"response": null` the program's `.get('response', '')` gives None, while the model gives `Some("")`.
- StyleTraining.StyleTrainer.GenerateWithStyle: the same drop, through `Service.ResponseText`. The program returns None for a 200 reply with `"response": null`; the model returns `Some("")`.
- File and JSON I/O is not modelled. `load_config`/`save_config` are replaced by configuration data already loaded with `available_models` present. `save_config`'s result is a `saved` parameter. Reading sample files becomes the list of name/contents pairs the directory yields, in the order it yields them.
- ModelConfigs.ModelConfigManager.constructor: the case where loading fails and `_config_data` stays `None` is not modelled (every later call would then raise). `get_config_settings` and configuration settings other than `sort_by` are not modelled.
- ModelConfigs.ToConfig: entries are assumed to hold the keys the dataclass needs. The `TypeError` for a missing or unknown key is not modelled.
- `uuid4` and `datetime.now()` are caller-supplied. `isoformat`/`fromisoformat` are taken to be exact inverses (`Json.JTime`).
- Conversations.ConversationFromJson: stricter than the program. It rejects values of the wrong JSON type, which Python's dataclasses would store unchecked. It does not model `from_dict` rewriting the caller's dictionary in place.
- Conversations are values. Aliasing a `Conversation` object returned by `get_conversation` and mutating it later is not modelled.
- Floating point is left out. `usage_percent` is not modelled, nor its division by zero when a modelfile declares `num_ctx 0`; the same goes for `size_gb` and `avg_sentence_length`. The 0.75 factor is exact in binary. The 0.8 and 0.6 factors are modelled as exact fractions, which can differ from float rounding only for limits far beyond any configured one.
- Text.ParseInt: Python's `int()` also accepts surrounding whitespace, underscores between digits and non-ASCII digits. The model accepts an optional sign and ASCII digits only; a whitespace-split word never has surrounding whitespace.
- Text.ToLower: ASCII letters only. Python's `lower()` also maps other Unicode letters.
- Text.SliceBound: its ensures states only the bound. Its meaning for negative and large indices is used through `StyleTraining.PromptShowsFirstSamples` and the truncation lemmas.
