# CV pipeline workflow graphs — a Dafny model

This project models the control-flow core of the CV-processing pipeline and proves what it does:

- **The CV-evaluation workflow graph** (`CVAgent`). Its nodes are `classify_cv`, `clean_up_inappropriate_cv`, `first_cv_step` and `second_cv_step`. The `route_inappropriate` gate follows `classify_cv`. The shared `AgentState` is updated by partial updates, each merged into the state.
- **The demo interview graph** (`cv_agent`). It is a linear chain `question_1 → comment_1 → question_2 → comment_2 → END` over a message list.
- **The pure derivations in the synthetic-data generator.** These cover:
  - the file identifier of a position description;
  - the responsibility, qualification and skills sections;
  - the contact line and technologies line of a CV;
  - the shape of a random demographic profile.

The graph-execution library is not part of the source, so the model states the execution semantics it assumes (`Engine`, in `engine.dfy`):

1. Start at the entry node.
2. Run the node and merge its partial update into the state. Keys in the update overwrite; every other key is kept.
3. Follow the node's unconditional edge, or call its router on the merged state.
4. Stop at END.

A `fuel` argument bounds the number of node invocations. Routers return a target value and never a state, so routing cannot change the state.

Modules, one per component:

- `Wrappers`: `Option` and `Result`.
- `Engine`: the generic graph and its run function.
- `CvState`: `AgentState` and `Merge`.
  - The state is a record of optional fields.
  - It also holds `cv_type`, which the classifier writes and the router reads although the TypedDict does not declare it.
  - A map `extra` holds keys outside the schema, such as the `doc_id` that `process_cv` passes in.
  - `ToMap` views a state as the Python dict it stands for. A state stands for a dict only when `extra` holds none of the six declared names (`Tidy`); merging keeps that.
  - Merging is proved to be dict update.
- `CvGraph`: node names and the methods they are bound to (`second_cv_step` is bound to `nodes.first_cv_step`), the partial updates, the router and the graph.
  - The graph is built over an arbitrary node behaviour (`GraphWith`), so the gate is proved for any classifier whose update fits the state's field types: `cv_type` either unset or a string (see `CvState.State` under "Left out").
  - `CvAgent()` is the graph over the methods as written.
- `DemoAgent`: the message-appending interview graph. The interrupt answers and the chat model are opaque inputs. The model is a function from the prompt it receives to its reply.
- `PyStr`, `PyValue`: the Python string and value operations the generator relies on: `str.isspace`, `strip`, `replace`, `join`, ASCII `lower`, `dict.get`, truthiness and iteration.
- `FakeData`: the generator's pure pieces. Each section is a sequence of content blocks (`Block`).

Three facts about the code as written shape the model:

- There is one CV graph, and no node reads or writes the calibration or escalation fields.
- The router reads `state["cv_type"]` directly, so a missing `cv_type` raises `KeyError`; no dedicated routing error exists (`CvGraph.MissingCvTypeFails`).
- A preset `cv_type` is overwritten: `classify_cv` sets it to `"everyday"` before the router reads it, so an input already marked `"not_ai_appropriate"` takes the main path (`CvGraph.PresetCvTypeOverwritten`).

Binding `second_cv_step` to `nodes.first_cv_step` looks like a copy slip. Both methods return `{}`, though, so no input can tell the two bindings apart. The model keeps the binding as written.

## Model

| member | source | states |
|---|---|---|
| Engine.Exec | cv_pipeline/pipelines/agent/graph.py:45-56 | a run visits at most `fuel` nodes, starts with the node it is started at, when it runs out of fuel it has visited exactly `fuel` nodes, and otherwise visits at least one node |
| Engine.ExecStaysRegistered | cv_pipeline/pipelines/agent/graph.py:36-53 | in a graph that passes the compile checks, every node a run visits is a registered node |
| Engine.Run | cv_pipeline/pipelines/agent/graph.py:34 | every run with fuel starts at the entry point, and no run invokes more than `fuel` nodes |
| Engine.ExecFuelMonotone | cv_pipeline/pipelines/agent/graph.py:56 | once a run stops on its own (END or an error), more fuel gives the same outcome |
| CvState.Merge | cv_pipeline/pipelines/agent/state.py:5-10 | reading any key of a merged state gives the update's value when the update sets that key, and the state's value otherwise |
| CvState.MergeIsDictUpdate | cv_pipeline/pipelines/agent/state.py:5-10 | the dict of the merged state is the dict update `{**state, **update}` |
| CvState.MergeEmpty | cv_pipeline/pipelines/agent/state.py:5-10 | merging `{}` leaves every state unchanged |
| CvState.MergeOverwritesAndKeeps | cv_pipeline/pipelines/agent/state.py:5-10 | a key the update sets takes the update's value, even when the state lacked it; every other key keeps its value; no key is deleted |
| CvState.MergeIdempotent | cv_pipeline/pipelines/agent/state.py:5-10 | merging the same update twice equals merging it once |
| CvState.ToMapInjective | cv_pipeline/pipelines/agent/state.py:5-10 | two states with the same dict are the same state, so no two records stand for one dict |
| CvState.TidyNamesDistinct | cv_pipeline/pipelines/agent/state.py:5-10 | in a state whose `extra` holds no declared field name, distinct present keys have distinct Python names, so the view is a dict keyed by those names |
| CvState.MergeTidy | cv_pipeline/pipelines/agent/state.py:5-10 | merging two such states gives such a state |
| CvGraph.RouteInappropriate | cv_pipeline/pipelines/agent/edges.py:14-22 | routes to clean-up iff `cv_type == "not_ai_appropriate"`; routes to `first_cv_step` iff `cv_type` is present with any other value; raises `KeyError("cv_type")` iff it is absent |
| CvGraph.RouteTargetsRegistered | cv_pipeline/pipelines/agent/graph.py:37-43 | each literal the router returns is the registered name of a registered node, and the two literals name different nodes |
| CvGraph.Bound | cv_pipeline/pipelines/agent/graph.py:37-43 | every node runs the method of its own name, except `second_cv_step`, which runs `first_cv_step`; `nodes.second_cv_step` is never bound |
| CvGraph.Rules | cv_pipeline/pipelines/agent/graph.py:47-53 | only classify_cv has a conditional edge, routed by `route_inappropriate`; first_cv_step leads to second_cv_step; clean-up and second_cv_step lead to END |
| CvGraph.CvAgent | cv_pipeline/pipelines/agent/graph.py:18-58 | the compiled graph starts at classify_cv, registers the four nodes and passes the compile checks |
| CvGraph.GraphWellFormed | cv_pipeline/pipelines/agent/graph.py:34-53 | whatever the node behaviour: the entry point, every edge target and every router target are registered nodes |
| CvGraph.ClassifyNext | cv_pipeline/pipelines/agent/graph.py:47 | after `classify_cv`, the next node is decided on the merged state: clean-up, `first_cv_step`, or the `KeyError`, each under exactly its condition |
| CvGraph.GateShortCircuit | cv_pipeline/pipelines/agent/graph.py:47-49 | for any classifier, if the post-classification state has `cv_type == "not_ai_appropriate"`, the run visits exactly [classify_cv, clean_up_inappropriate_cv] and reaches END with that node's merged state |
| CvGraph.MainPath | cv_pipeline/pipelines/agent/graph.py:47-53 | for any classifier, any other present `cv_type` gives exactly [classify_cv, first_cv_step, second_cv_step] and then END; both steps run the `first_cv_step` method |
| CvGraph.MissingCvTypeFails | cv_pipeline/pipelines/agent/edges.py:19 | a classifier that leaves `cv_type` unset makes the run fail with `KeyError` after visiting only classify_cv |
| CvGraph.RunsStop | cv_pipeline/pipelines/agent/graph.py:34-53 | for any node behaviour and initial state, three invocations suffice: the run never runs out of fuel, and its visitation sequence is one of the three paths |
| CvGraph.ClassifyUpdate | cv_pipeline/pipelines/agent/nodes.py:21-33 | the classifier's update is exactly the dict `{"cv_type": "everyday"}`, whatever the input state |
| CvGraph.Update | cv_pipeline/pipelines/agent/nodes.py:21-54 | only classify_cv sets a key; it sets only `cv_type`, always to "everyday"; every other method returns `{}` |
| CvGraph.EmptyUpdates | cv_pipeline/pipelines/agent/nodes.py:35-54 | the clean-up and step methods return `{}`, so merging their update changes nothing |
| CvGraph.UpdatesIgnoreState | cv_pipeline/pipelines/agent/nodes.py:21-54 | no method's update depends on the state it receives |
| CvGraph.ClassifyIdempotent | cv_pipeline/pipelines/agent/nodes.py:29-33 | applying the classifier's update twice equals applying it once |
| CvGraph.CvAgentRun | cv_pipeline/pipelines/agent/graph.py:37-53 | with the methods as written, every run visits [classify_cv, first_cv_step, second_cv_step] and ends with the initial state plus only `cv_type = "everyday"` |
| CvGraph.CleanUpUnreachable | cv_pipeline/pipelines/agent/nodes.py:29-33 | with the classifier as written, no run visits clean_up_inappropriate_cv, for any fuel |
| CvGraph.PresetCvTypeOverwritten | cv_pipeline/pipelines/agent/nodes.py:29-33 | an input that already has `cv_type == "not_ai_appropriate"` still takes the main path, and the run ends with `cv_type == "everyday"`, because classify_cv overwrites the key before the router reads it |
| CvGraph.UntouchedFields | cv_pipeline/pipelines/agent/nodes.py:21-54 | `safe`, `calibration_scheduled`, `calibration_needed`, `related_applications`, `prompt_injection` and the undeclared keys keep their initial values, or stay absent |
| CvGraph.ProcessCvRun | cv_pipeline/pipelines/process.py:10-14 | invoking the graph on `{"doc_id": "123abc"}` takes the main path and returns `doc_id` with `cv_type = "everyday"` |
| DemoAgent.WrapModel | src/agents/cv_agent.py:35-42 | the preprocessed prompt is one longer than the conversation, its head is the system prompt and its tail is the conversation |
| DemoAgent.LinearChain | src/agents/cv_agent.py:94-104 | entry is question_1; each node of the chain has an unconditional edge to the next, and the last has one to END; there are no conditional edges; the graph passes the compile checks |
| DemoAgent.Rules | src/agents/cv_agent.py:100-104 | every rule is an unconditional edge, and only comment_2 leads to END |
| DemoAgent.NodeMessages | src/agents/cv_agent.py:45-90 | each node returns exactly one message: a Human message from the question nodes and an AI message from the comment nodes |
| DemoAgent.NodeMessagesShape | src/agents/cv_agent.py:45-90 | each node returns one message: the question nodes return a Human message with the interrupt answer, whatever the state; the comment nodes return an AI message with the model's reply to their system prompt followed by the conversation |
| DemoAgent.Transcript | src/agents/cv_agent.py:45-90 | the messages a full run adds are four, alternating Human, AI, Human, AI |
| DemoAgent.DemoRun | src/agents/cv_agent.py:93-106 | every run visits question_1, comment_1, question_2, comment_2 and stops; it appends exactly the transcript, each reply computed on everything said before it; `birthdate` is untouched |
| PyStr.SkipLeading | cv_pipeline/pipelines/create_fake_data.py:30 | the forward scan passes only whitespace and stops at the end or on the first non-whitespace character |
| PyStr.SkipTrailing | cv_pipeline/pipelines/create_fake_data.py:30 | the backward scan passes only whitespace and stops at its lower bound or just after a non-whitespace character |
| PyStr.SkipLeadingAt | cv_pipeline/pipelines/create_fake_data.py:30 | the forward scan stops exactly at the first non-whitespace index |
| PyStr.SkipTrailingAt | cv_pipeline/pipelines/create_fake_data.py:30 | the backward scan stops exactly after the last non-whitespace index |
| PyStr.Strip | cv_pipeline/pipelines/create_fake_data.py:30-31 | the result has no surrounding whitespace, and it is empty iff the input is all whitespace |
| PyStr.StripDecomposes | cv_pipeline/pipelines/create_fake_data.py:30-31 | the input is a blank prefix, then the stripped text, then a blank suffix |
| PyStr.StripUnique | cv_pipeline/pipelines/create_fake_data.py:30-31 | stripping blank padding from around unpadded text gives exactly that text |
| PyStr.StripUnpadded | cv_pipeline/pipelines/create_fake_data.py:30-31 | text without surrounding whitespace is its own strip |
| PyStr.StripIdempotent | cv_pipeline/pipelines/create_fake_data.py:30-31 | stripping twice equals stripping once |
| PyStr.ReplaceSpaces | cv_pipeline/pipelines/create_fake_data.py:31 | same length, no space left, each space becomes `_`, every other character is kept |
| PyStr.JoinLength | cv_pipeline/pipelines/create_fake_data.py:215-217 | a join is as long as its items plus one separator between each neighbouring pair |
| PyStr.Join | cv_pipeline/pipelines/create_fake_data.py:215-217 | joining no items gives the empty string; otherwise the join starts with the first item |
| PyStr.JoinEndsWithLast | cv_pipeline/pipelines/create_fake_data.py:215-217 | a non-empty join ends with the last item |
| PyStr.JoinSnoc | cv_pipeline/pipelines/create_fake_data.py:215-217 | joining one more item appends the separator and that item |
| PyStr.JoinEmptyIff | cv_pipeline/pipelines/create_fake_data.py:215-218 | with a non-empty separator, the join is empty iff there are no items or the only item is empty |
| PyStr.Lower | cv_pipeline/pipelines/create_fake_data.py:91 | same length; exactly the upper-case ASCII letters change, each to its lower-case form |
| PyValue.Iterate | cv_pipeline/pipelines/create_fake_data.py:314-317 | lists, strings and dicts are iterable, each yielding its items, one-character strings or keys; other values are not |
| PyValue.Get | cv_pipeline/pipelines/create_fake_data.py:86-91 | `get` gives `None` when no entry has the key, and a value it gives is stored under the key |
| PyValue.GetStored | cv_pipeline/pipelines/create_fake_data.py:86-91 | when keys are distinct, as in every Python dict, `get` returns the value stored under the key |
| PyValue.Truthy | cv_pipeline/pipelines/create_fake_data.py:313 | the falsy values are exactly `None`, `False`, `0`, `""`, `[]` and `{}` |
| FakeData.PdIdentifier | cv_pipeline/pipelines/create_fake_data.py:28-33 | for a non-blank string position number, the identifier is the stripped number with each space turned into `_`, so it is non-empty, has no space and no surrounding whitespace; otherwise it is the fresh uuid |
| FakeData.PdIdentifierViaStrip | cv_pipeline/pipelines/create_fake_data.py:30-31 | the identifier depends on the position number only through its stripped form |
| FakeData.PdIdentifierIgnoresPadding | cv_pipeline/pipelines/create_fake_data.py:30-31 | padding a position number with whitespace does not change its identifier |
| FakeData.NonBlankStrings | cv_pipeline/pipelines/create_fake_data.py:75-79 | the filter keeps at most as many items as it is given, and none of them is blank |
| FakeData.NonBlankStringsAppend | cv_pipeline/pipelines/create_fake_data.py:75-79 | the filter distributes over concatenation, so it keeps the original order |
| FakeData.NonBlankStringsMembers | cv_pipeline/pipelines/create_fake_data.py:75-79 | a string is kept iff it is a non-blank string item |
| FakeData.NonBlankStringsEmpty | cv_pipeline/pipelines/create_fake_data.py:75-80 | the filter is empty iff no item is a non-blank string |
| FakeData.StripAll | cv_pipeline/pipelines/create_fake_data.py:76 | each kept item is replaced by its stripped form, in place |
| FakeData.Responsibilities | cv_pipeline/pipelines/create_fake_data.py:72-79 | every kept responsibility is non-empty and has no surrounding whitespace |
| FakeData.ResponsibilitiesMembers | cv_pipeline/pipelines/create_fake_data.py:75-79 | the kept responsibilities are exactly the stripped forms of the non-blank string items |
| FakeData.ResponsibilityBlocks | cv_pipeline/pipelines/create_fake_data.py:72-83 | the section appears iff the value is a list with a non-blank string item; it is then the heading followed by one bullet per kept item |
| FakeData.QualContent | cv_pipeline/pipelines/create_fake_data.py:87-93 | at most one pair per field; the text of each pair is the stripped non-blank string stored under the lowercase form of its label, so it is non-empty with no surrounding whitespace |
| FakeData.QualContentOrdered | cv_pipeline/pipelines/create_fake_data.py:89-93 | the labels of the collected pairs occur in the order of the field list |
| FakeData.QualContentLabelsIn | cv_pipeline/pipelines/create_fake_data.py:89-93 | every collected label is one of the fields |
| FakeData.QualContentEmpty | cv_pipeline/pipelines/create_fake_data.py:89-95 | nothing is collected iff no field's lowercase key holds a non-blank string |
| FakeData.QualContentHasField | cv_pipeline/pipelines/create_fake_data.py:89-93 | a field contributes a pair iff the value under its lowercase key is a non-blank string |
| FakeData.QualDictBlocks | cv_pipeline/pipelines/create_fake_data.py:87-100 | the section appears iff some field is present, and it is then the heading followed by one labelled paragraph per collected pair, in order |
| FakeData.QualBlocks | cv_pipeline/pipelines/create_fake_data.py:85-103 | a dict gives the section above; a string is always emitted stripped after the heading, even when blank; any other value gives nothing |
| FakeData.QualKeys | cv_pipeline/pipelines/create_fake_data.py:89-91 | the three fields are looked up under `education`, `experience` and `certifications` |
| FakeData.ValidSkillList | cv_pipeline/pipelines/create_fake_data.py:111-116 | a skill list is valid (`any` non-blank string) iff filtering it keeps something |
| FakeData.SkillGroup | cv_pipeline/pipelines/create_fake_data.py:120-129 | a valid list gives the bold title followed by one bullet per non-blank string item, holding that item stripped, in order; an invalid list gives nothing |
| FakeData.SkillsBlocks | cv_pipeline/pipelines/create_fake_data.py:105-132 | for a dict, the section appears iff the hard-skill or the soft-skill list is valid, and then it is the "Skills" heading, the hard-skill group and the soft-skill group, in that order; a string is emitted stripped after the heading; any other value gives nothing |
| FakeData.ContactItems | cv_pipeline/pipelines/create_fake_data.py:206-213 | the six contact values are looked up in the order email, phone, linkedin, github, website, address |
| FakeData.ContactLine | cv_pipeline/pipelines/create_fake_data.py:215-218 | the contact line is empty iff no contact value is a non-blank string |
| FakeData.ContactBlocks | cv_pipeline/pipelines/create_fake_data.py:206-220 | a contact paragraph is added iff some contact value is a non-blank string, and it then holds the contact line |
| FakeData.ContactLineMembers | cv_pipeline/pipelines/create_fake_data.py:206-217 | a string is one of the parts of the contact line iff it is non-blank and is the value of one of the six contact keys; parts are not stripped |
| FakeData.ContactLineLength | cv_pipeline/pipelines/create_fake_data.py:215-217 | the contact line is as long as its parts plus three characters (space-bar-space) per separator |
| FakeData.StringItems | cv_pipeline/pipelines/create_fake_data.py:315-317 | keeps exactly the string items, blank ones included, and no more strings than items |
| FakeData.StringItemsAppend | cv_pipeline/pipelines/create_fake_data.py:315-317 | the filter distributes over concatenation, so string items keep their order and multiplicity |
| FakeData.StringItemsOfStrings | cv_pipeline/pipelines/create_fake_data.py:315-317 | a list of strings is kept whole, blank strings included |
| FakeData.TechnologiesBlocks | cv_pipeline/pipelines/create_fake_data.py:313-318 | no paragraph when the value is falsy; `TypeError` iff it is truthy but not iterable; otherwise exactly one paragraph, whose text starts with "Technologies: " |
| FakeData.TechnologiesOfList | cv_pipeline/pipelines/create_fake_data.py:313-318 | a non-empty list gives its string items joined by ", " |
| FakeData.TechnologiesOfString | cv_pipeline/pipelines/create_fake_data.py:313-318 | a non-empty plain string is iterated by character: the paragraph is "Technologies: " followed by its one-character strings joined by ", " |
| FakeData.TechnologiesOfGo | cv_pipeline/pipelines/create_fake_data.py:313-318 | for instance, "Go" gives "Technologies: G, o" |
| FakeData.Choice | cv_pipeline/pipelines/create_fake_data.py:394-400 | a random choice is always one of its options |
| FakeData.ChoiceCovers | cv_pipeline/pipelines/create_fake_data.py:394-400 | every option can be drawn |
| FakeData.DemographicProfile | cv_pipeline/pipelines/create_fake_data.py:350-403 | the profile has the nine fixed keys in order, copies `position_number` and `application_id`, and holds an option from the matching list in each other field |
| FakeData.ProfileKeysDistinct | cv_pipeline/pipelines/create_fake_data.py:391-401 | the nine profile keys are distinct |
| FakeData.ProfileReachable | cv_pipeline/pipelines/create_fake_data.py:361-401 | every combination of options is a possible profile |

## Left out

- The graph-execution library (`StateGraph.compile`, `invoke`, `interrupt`/resume, asynchronous execution, checkpointing). Only the assumed run semantics above is modelled.
- Untidy states: a record whose `extra` holds a declared name such as `"cv_type"` carries one Python key twice, and `Merge` does not resolve it as `{**s, **u}` would. Such records stand for no dict; the dict facts (`CvState.TidyNamesDistinct`) assume `Tidy`, and every update the graph's nodes return has an empty `extra`.
- Keys outside the schema: the assumed engine keeps `cv_type` and `doc_id`, although `StateGraph(AgentState)` is built from a TypedDict that declares neither. If the library keeps only declared keys, the update to `cv_type` is dropped and the router raises `KeyError`. `CvGraph.CvAgentRun`, `CvGraph.ProcessCvRun` and the other runs of the graph as written are therefore facts about the assumed semantics, not about the library.
- CvState.State: every field is typed. The flags are booleans, `cv_type` and `related_applications` are strings, `extra` maps to strings, and an unset field stands for an absent key. An update that writes a present `None` or a non-string `cv_type` cannot be expressed; in Python the router compares such a value and routes to `first_cv_step`. `CvGraph.GateShortCircuit`, `CvGraph.MainPath` and `CvGraph.RunsStop` are stated only for updates of these types.
- Registration-time errors such as a duplicate node name. Node names are a closed datatype, so a name cannot be registered twice, and each node has exactly one outgoing rule because the rules are a total function.
- The logging calls in the nodes, `print` in `process_cv` and the comment nodes, and `CVAgent.draw_compiled_agent_graph`. These are I/O, and the drawing helper is not part of this model.
- The language-model calls, `get_model` and the configuration lookup: the chat model is an opaque function input. The `interrupt` answers are opaque inputs.
- DemoAgent.AddMessages: the `add_messages` reducer also replaces a message that has the same id. Every message the nodes create is fresh, so appending is its only behaviour here.
- The document construction and styling (python-docx), file paths, saving, the LibreOffice subprocess and the file removal. The model stops at the content blocks.
- `uuid.uuid4()` and `random.choice`. The uuid is an opaque string parameter. Each random choice is an opaque draw `k`, picking the option at `k` modulo the list length.
- The company, job title, details and summary parts of the position description. The work experience, education, skills-by-category and project name, link and description parts of the CV. The `__main__` prompting and JSONL parsing. The `str.title()` category formatting.
- FakeData.ContactBlocks: `personal_info` is taken to be a dict. A non-dict value makes the source raise when it calls `.get`, and that path is not modelled.
- PyStr.Lower: only ASCII letters are lowered. It is applied only to the three ASCII field labels.
- PyValue.Value: floats are not modelled. Dict keys are strings, and a dict is an association list in insertion order. The list does not enforce distinct keys; `PyValue.GetStored` assumes them (`DistinctKeys`), as every Python dict has them. A JSON document that repeats a name is parsed by Python into one key holding the last value, while `PyValue.Get` on a list with a repeated key returns the first, and `PyValue.Iterate` would yield the key twice.
- Preprocessing, service construction, retry wrapping, CSV writing and the database schema modules. These are I/O, configuration and declarations, with no control flow of the core.
