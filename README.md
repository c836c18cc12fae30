# Card processor, modelled in Dafny

`card_processor.py` converts a saved tabletop-game document into three outputs:

- one JSON file per card;
- a manifest that lists those files;
- a rewrite of the source document.

For one source document it does the following:

1. It finds the first object in `ObjectStates` whose `Name` is `"Bag"`.
2. It checks that the Bag has a GUID and a non-empty `ContainedObjects`.
3. It walks the Bag's children and keeps only those whose `Name` is `"Card"`.
4. It gives each kept card a GUID when the card lacks a truthy one. A GUID is
   six characters drawn from `123456789abcdef`.
5. It copies six fields of each card onto a card template and writes the copy
   as `{clean_name}.{GUID}.json`. The clean name is the card's `Nickname`, or
   `Card_{i+1}` when it has none, with every character removed except those in
   U+4E00-U+9FA5, ASCII letters and digits. An empty result becomes `"Unknown"`.
6. It writes the kept cards back into the Bag, in place of its old children.
7. It fills a list template with three fields to make the manifest:
   - the ordered file stems;
   - the sub-directory name `{source stem}.{Bag GUID}`;
   - the Bag GUID.

`main` runs the whole batch twice.

The model is organised in modules:

- `Json`: JSON values, Python's `dict.get`, truthiness and `str()`.
- `Names`: `clean_filename` and the `.replace('.json', '')` that turns a file
  name into a stem.
- `Guids`: `generate_guid`, with the random source as an oracle
  `rand: nat -> nat`. Draw number `p` picks `Alphabet[rand(p) % 15]`.
- `Templates`: `create_template_card` and the field assignments of
  `create_list_template`. Each is a method proved equal to a function, and the
  function's content is proved by lemmas.
- `Locator`: `_find_bag_object` as a first-match scan. It reports where the Bag
  is, so that the caller can write the changed Bag back.
- `CardLoop`: the per-card loop.
  - `Run` is its specification, a left fold of `Step` over the children.
  - `ProcessCards` is the loop itself, proved to compute `Run`.
- `CardLoopFacts`: what the loop guarantees:
  - which children are kept, and in what order;
  - how GUIDs are assigned;
  - what each stem and each templated card is;
  - where Python raises;
  - what a second pass does.
- `Pipeline`: `process_source_file` after the document has been parsed.
  - `ProcessSpec` gives the outcome: a crash, one of the three early returns,
    or the processed outputs.
  - `ProcessSourceFile` is the imperative body, proved to compute it.
  - The lemmas cover the early exits, the rewritten document, the manifest and
    the second run of `main`.
- `Scenarios`: concrete runs of the card loop.

Python exceptions are part of the model, as outcomes where Python raises:

- a child of the Bag that is not a dict;
- a kept card whose `Nickname` is not a string, which makes `re.sub` raise;
- a document that is not a dict;
- an `ObjectStates` that cannot be iterated as dicts;
- a truthy `ContainedObjects` that is not a list.

Nothing in `process_source_files` or `main` catches these exceptions, so the
rest of the batch does not run. The card files written before the exception
are part of the `Crashed` outcome.

Two details of the file name, from card_processor.py:107-108:

- A `Nickname` that is present but empty cleans to `"Unknown"`. The
  `Card_{i+1}` fallback applies only when the key is absent.
- The fallback is cleaned like any nickname, so it becomes `Card{i+1}`,
  without the underscore.

`Scenarios.TwoCardRun`, `CardLoopFacts.StemWithFallback` and
`Names.CleanCardFallback` state this behaviour.

`main` runs the batch twice. A second run over the rewritten document draws no
GUID and rewrites the document to itself. It can still rename a card:

- The fallback name counts positions among all children.
- After the first run the Bag holds only cards.
- So a nickname-less card that had non-card children before it gets a new
  stem on the second run. `CardLoopFacts.SecondPassRenames` proves this.

## Model

| member | source | states |
|---|---|---|
| `Json.Get` | card_processor.py:72 | definition of Python's `dict.get(key, default)`: the stored value when the key is present, the default otherwise |
| `Json.Truthy` | card_processor.py:73 | definition of Python's truth test, used for every `not x`: null, false, 0, "", [] and {} are false, everything else is true |
| `Json.Str` | card_processor.py:109 | `str()` of a string is the string itself, and `str()` of any other value contains no `.` |
| `Json.NatDigitsValue` | card_processor.py:107 | the decimal rendering used in `Card_{i + 1}` reads back as the same number |
| `Guids.GenerateGuid` | card_processor.py:40-43 | the result has exactly 6 characters, each a digit 1-9 or a letter a-f |
| `Guids.GuidCharIsInAlphabet` | card_processor.py:42 | the character test used for GUIDs is exactly membership in `"123456789abcdef"` |
| `Guids.EveryGuidReachable` | card_processor.py:40-43 | every 6-character string over the alphabet is produced by some sequence of draws |
| `Guids.GuidIsPlain` | card_processor.py:40-43 | a generated GUID is non-empty, contains no `.`, and does not begin with `json` |
| `Names.CleanFilename` | card_processor.py:45-49 | the result is never empty and holds only characters in U+4E00-U+9FA5, a-z, A-Z and 0-9 |
| `Names.Keep` | card_processor.py:48 | the character filter of `re.sub`; the result is no longer than the input and holds only allowed characters |
| `Names.KeepAppend` | card_processor.py:48 | sanitising a concatenation sanitises each part and keeps them in order |
| `Names.KeepCounts` | card_processor.py:48 | each allowed character survives exactly as often as it occurs, and no other character survives |
| `Names.KeepFixpoint` | card_processor.py:48 | the substitution leaves a string unchanged if and only if all its characters are allowed |
| `Names.CleanFilenameIdempotent` | card_processor.py:45-49 | `clean_filename(clean_filename(s)) == clean_filename(s)` |
| `Names.CleanFilenameFixpoint` | card_processor.py:45-49 | `clean_filename(s) == s` if and only if `s` is non-empty and fully allowed |
| `Names.CleanCardFallback` | card_processor.py:107-108 | the fallback name `Card_{n}` sanitises to `Card{n}` |
| `Names.RemoveAll` | card_processor.py:116 | `.replace(pat, '')`, scanning left to right without overlaps; the result is no longer than the input |
| `Names.RemoveAllDotFree` | card_processor.py:116 | removing `.json` passes unchanged over a prefix that has no `.` |
| `Names.StemOfFileName` | card_processor.py:109-116 | removing `.json` from `name.guid.json` gives `name.guid` when neither part has a `.` and the GUID does not begin with `json` |
| `Locator.Scan` | card_processor.py:132-135 | a found index holds a Bag, and every element before it is a dict that is not a Bag; nothing is found if and only if every element is a dict and none is a Bag; a raise means some element before any Bag is not a dict |
| `Locator.FindBag` | card_processor.py:129-135 | the first Bag of `ObjectStates` is found; a missing `ObjectStates` finds nothing; a document that is not a dict raises |
| `Templates.TemplateCard` | card_processor.py:137-149 | definition: the template with the six fields taken from the card or their defaults; `Templates.TemplateCardFields` states its content |
| `Templates.TemplateCardFields` | card_processor.py:137-149 | the templated card has the template's keys plus the six card fields; each of the six comes from the card, or takes its default 0, {}, "", "", "" or false; every other key is the template's |
| `Templates.CreateTemplateCard` | card_processor.py:137-149 | copying the template and assigning the six fields one by one gives the templated card |
| `Templates.Manifest` | card_processor.py:151-158 | the manifest has the list template's keys plus the three fields; the order holds the stems in order, the path holds the sub-directory name, the GUID holds the Bag GUID; other keys are the template's |
| `Templates.CreateListTemplate` | card_processor.py:151-158 | copying the list template and assigning the three fields gives the manifest |
| `CardLoop.WithGuid` | card_processor.py:98-100 | definition: a card whose `GUID` is missing or falsy gets `GUID` set to a generated identifier, any other card is unchanged; `CardLoopFacts.WithGuidAssigns` states its properties |
| `CardLoop.CardStem` | card_processor.py:107-116 | definition: the cleaned nickname (or `Card_{i+1}` when absent), `.`, `str(GUID)` and `.json`, with every `.json` then removed; `CardLoopFacts.StemIsNameDotGuid` states its shape |
| `CardLoop.Step` | card_processor.py:93-117 | definition of one iteration: a raise is final, a non-dict raises, a non-card is skipped, and a card gets its GUID, then raises if its nickname is not a string, else appends the card, its stem and its templated copy |
| `CardLoop.Run` | card_processor.py:93-117 | definition of the loop as a left fold of `Step` over the children with their indices; `CardLoopFacts.RunMeaning` states what it computes |
| `CardLoop.ProcessCards` | card_processor.py:90-117 | the loop computes `Run`, the fold of one step per child |
| `CardLoop.CrashIsFinal` | card_processor.py:93-117 | once a child has made Python raise, later children change nothing |
| `CardLoopFacts.CardIndices` | card_processor.py:93-95 | the listed indices are strictly increasing and each one holds a child named "Card" |
| `CardLoopFacts.CardIndicesComplete` | card_processor.py:93-95 | every child named "Card" has its index listed |
| `CardLoopFacts.WithGuidAssigns` | card_processor.py:98-100 | a truthy GUID is kept and the card is unchanged; otherwise the GUID becomes a generated identifier and nothing else changes; either way the kept card has a truthy GUID |
| `CardLoopFacts.WithGuidKeepsNames` | card_processor.py:98-107 | assigning a GUID changes neither the `Name` test nor the nickname |
| `CardLoopFacts.RunMeaning` | card_processor.py:93-117 | without a raise, kept card `j` is the `j`-th child named "Card" with its GUID assigned; its stem and templated copy come from the updated card and its original index; there are six draws per assigned GUID |
| `CardLoopFacts.NoFatalNoCrash` | card_processor.py:93-117 | when every child is a dict and every card's nickname is a string, the loop does not raise |
| `CardLoopFacts.CrashAtFirstFatal` | card_processor.py:93-117 | a raise happens at the first fatal child, and the files written are exactly those of the children before it |
| `CardLoopFacts.RetainedSettled` | card_processor.py:98-117 | every kept card is still a card, has a truthy GUID, and has a string nickname when it has one |
| `CardLoopFacts.SettledRun` | card_processor.py:93-117 | a pass over settled cards keeps them all, unchanged and in order, and draws nothing |
| `CardLoopFacts.SecondPassAssignsNothing` | card_processor.py:173-174 | rerunning over the kept cards raises nothing, keeps the same cards, draws nothing and writes the same templated cards; it gives the same stems when every child was a card |
| `CardLoopFacts.SecondPassRenames` | card_processor.py:107 | a nickname-less card behind one non-card child gets stem `Card2.<guid>`, then `Card1.<guid>` on the rerun |
| `CardLoopFacts.StemIsNameDotGuid` | card_processor.py:107-116 | a stem is the cleaned nickname or fallback, a `.`, and the GUID, whenever the GUID has no `.` and does not begin with `json` |
| `CardLoopFacts.GeneratedStem` | card_processor.py:98-116 | a card given a generated GUID has the stem cleaned name + `.` + that GUID |
| `CardLoopFacts.StemWithFallback` | card_processor.py:107-116 | a card without `Nickname` at index `i`, whose GUID is a string with no `.` that does not begin with `json`, has the stem `Card{i+1}.{guid}` |
| `Pipeline.ProcessSpec` | card_processor.py:57-127 | definition of the outcome: a raise, the three early returns in source order, or the processed outputs; the lemmas below state each case |
| `Pipeline.ProcessSourceFile` | card_processor.py:57-127 | the imperative body computes the outcome `ProcessSpec` |
| `Pipeline.NoBagCases` | card_processor.py:67-70 | a document without `ObjectStates` ends without a Bag; with an array, there is no Bag if and only if every element is a dict and none is a Bag |
| `Pipeline.EmptyBagGuidCase` | card_processor.py:72-75 | once a Bag is found, the call stops at its GUID if and only if that GUID is missing or falsy |
| `Pipeline.NoCardsCase` | card_processor.py:81-85 | with a truthy Bag GUID, the call stops at the child list if and only if that list is missing or falsy; in particular a missing or empty list stops it and a non-empty list does not |
| `Pipeline.ProcessedDocument` | card_processor.py:119-122 | the rewritten document differs only in the Bag's `ContainedObjects`, which holds exactly the kept cards; the Bag is still the first Bag |
| `Pipeline.ProcessedOutput` | card_processor.py:78-125 | a processed call's stems and card bodies are those of the loop over the Bag's children; the manifest lists the stems in order, names the sub-directory `stem.bag_guid` and carries the Bag GUID |
| `Pipeline.ProcessedLeavesOnlyCards` | card_processor.py:117-120 | after processing, every child of the Bag is a card |
| `Pipeline.SecondPass` | card_processor.py:173-174 | the second run of `main` over the rewritten document returns early when no card was kept; otherwise it processes the same Bag, draws nothing, rewrites the document to itself and writes the same cards under the same sub-directory, with the same stems and manifest when the Bag held only cards |
| `Scenarios.NamedCardStem` | card_processor.py:107-116 | a card with nickname `测试Card!` and GUID `abc123` has the stem `测试Card.abc123` |
| `Scenarios.NamedCardBody` | card_processor.py:142-147 | that card's templated copy carries GUID `abc123` and the unsanitised nickname |
| `Scenarios.TwoCardRun` | card_processor.py:93-117 | cards ("Ancient One", empty GUID) then ("", `aaa111`) give the stems `AncientOne.<first draw>` and `Unknown.aaa111`, with six draws |

## Left out

- File reading and writing are not modelled: `open`, `json.load`, `json.dump` and their failures (card_processor.py:59-64, 113-114, 121-122, 161-163). The parsed document is an input. The outputs of a call are returned in the outcome.
- A source file that cannot be read or parsed is not modelled, because parsing is outside the model.
- Directory creation (card_processor.py:24, 79) is not modelled.
- `_load_template` (card_processor.py:30-38) is not modelled. Both templates are inputs and may be empty objects.
- The `random` module is replaced by an oracle. Nothing is stated about the distribution of GUIDs or about collisions.
- `print` logging is not modelled.
- `process_source_files` (card_processor.py:51-55) globs a directory and is not modelled. `main` (card_processor.py:168-176) appears only in the second-run lemmas.
- JSON numbers are integers. Python floats are not modelled.
- Json.Str: arrays and objects are rendered as "". Python renders them with `repr`. This matters only when a GUID is an array or an object.
- Pipeline.ProcessSourceFile: the manifest's `ContainedObjects_path` is taken to be `stem + "." + str(bag_guid)`. Python's `Path(...).name` differs when `str(bag_guid)` contains `/`.
- Pipeline.ProcessSourceFile: a `/` in `str(bag_guid)` usually makes `output_subdir.mkdir(exist_ok=True)` (card_processor.py:79, without `parents=True`) raise `FileNotFoundError`, because the intermediate directory does not exist. The model does not model directory creation, so it reports `NoCards` or `Processed` where Python raises.
- Pipeline.ProcessSourceFile: card files are recorded by stem and body, in the order written. Their exact file names are not recorded. When two cards share a file name, the file system keeps only the last body, and this is not modelled.
- CardLoopFacts.StemIsNameDotGuid: stated only for GUIDs without `.` that do not begin with `json`. The `.` condition is stronger than needed: the clean name never holds a `.`, so the stem is `name.guid` exactly when the GUID neither begins with `json` nor contains `.json`. A GUID such as `a.b` also gives `name.a.b`. For a GUID such as `jsonx` or `x.jsony`, `.replace('.json', '')` removes more than the extension. `Names.RemoveAll` models that replacement as written for every GUID.
- CardLoopFacts.StemWithFallback: stated under the same GUID condition as `CardLoopFacts.StemIsNameDotGuid`, which is stronger than needed for the same reason. With GUID `jsonx`, the stem is `Card1x`, not `Card1.jsonx`.
- Names.StemOfFileName: requires a GUID without `.` that does not begin with `json`. The exact condition for a dot-free name is that the GUID neither begins with `json` nor contains `.json`.
- Shallow-copy aliasing in `.copy()` (card_processor.py:139, 153) is not modelled. The model uses values, and nested values are never mutated, so value semantics match. In particular neither template is ever changed.
- The in-place mutation of a card and of the Bag is modelled by value. The updated card is both stored in the kept list and written back into the document, and the Bag is written back at the index where it was found.
