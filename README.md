# Colour assignment and priority sort

A model of the core of a small desktop application. The user types tokens into three fields: green ("З"), blue ("С") and red ("К"). "Assign colours" rebuilds a token → colour mapping from those fields. "Sort" then reads a list of tokens and shows them ordered green first, then blue, then red. Tokens of the same colour keep their input order.

The model has six modules:

- `Tokenizer`: Python's `str.strip().split()`, with Python's whitespace set.
- `Colours`: the three colours, their one-letter tags, and the priority table built from a colour order.
- `StableSort`: a stable sort by a natural-number key. Its reference definition is a counting sort.
- `Registry`: the mapping that "assign colours" leaves behind.
- `Sorter`:
  - `sort_by_color_order`, as a pure function returning `Ok` or `Err`;
  - the validation loop of `sort_colors`, which looks for the first uncoloured token.
- `App`: the `Application` class. Its `mapping` field is `color_mapping`. Its `shown` field holds the tokens the result area displays.

A seventh module, `Scenarios`, replays the scenarios of `test_app.py` against `Application`.

Each `KeyError` of the source is a `SortError` value in the model:

- `UncolouredObject(token)`: `sort_colors` found a token without a colour. It names the first such token.
- `SomeObjectsUncoloured`: `sort_by_color_order` found an uncoloured token while pairing tokens with colours.
- `UnrankedColour(tag)`: a colour tag is missing from the colour order.

The sort action ends in one of three `SortOutcome`s: `EmptyInput`, `Failed(error)` or `Displayed(tokens)`.

## Model

| member | source | states |
|---|---|---|
| App.Application.constructor | app.py:14-26 | a new application has an empty colour mapping and an empty result area |
| App.Application.AssignColours | app.py:78-94 | the mapping is cleared, then rebuilt from the stripped, whitespace-split green, blue and red fields, in that order (`Assigned` of the three token lists); the result area is untouched |
| App.Application.PaintAll | app.py:89-94 | one of the three loops: after `for obj in ts: mapping[obj] = c` the mapping is `Paint(old mapping, ts, c)` |
| App.Application.SortColours | app.py:98-146 | the mapping never changes. A blank objects field gives `EmptyInput` and leaves the result area alone. Otherwise, if some token has no colour, the outcome is `Failed(UncolouredObject(t))`, where `t` is the first such token in input order, and the result area is unchanged. Otherwise the result area shows `sort_by_color_order`'s result for the default order: the green tokens, then the blue, then the red, each group in input order |
| App.AssignTwice | app.py:82-94 | running "assign colours" twice on the same fields leaves the same mapping as running it once (idempotence) |
| App.Reassign | app.py:82-94 | a second assignment forgets the first: the mapping equals what a fresh application builds from the second fields alone |
| Registry.Paint | app.py:89-94 | one write loop `for obj in ts: mapping[obj] = c` on values; its contract is stated by `Registry.PaintEffect` |
| Registry.Assigned | app.py:82-94 | the mapping built by clearing and running the green, blue and red loops in order; its contract is stated by `Registry.AssignedSpec` |
| Registry.PaintEffect | app.py:89-94 | after writing colour `c` to every token of `ts`: a token is a key iff it was one before or is in `ts`; tokens of `ts` map to `c`; every other key keeps its old colour |
| Registry.AssignedSpec | app.py:82-94 | the keys of the rebuilt mapping are exactly the union of the three lists; the last write wins: red beats blue and blue beats green for a token in several lists; nothing from an earlier mapping survives |
| Colours.TagInjective | app.py:90-94 | the three colour tags are pairwise distinct, so a tag identifies its colour |
| Colours.PriorityTable | app.py:160 | the dict comprehension over `enumerate(color_order)`: its keys are exactly the entries of the order; each maps to an index holding that entry; no later index holds it (a repeated colour keeps its last index) |
| Colours.DefaultTable | app.py:148-160 | under the default order `["З", "С", "К"]`, green, blue and red have priorities 0, 1 and 2 |
| Sorter.FirstUnranked | app.py:169 | the key lookup `color_priority[x[1]]` fails iff some token's colour is not in the order; the failure reports such a tag, one not in the order, belonging to the first token whose tag is unranked |
| Sorter.Rank | app.py:169 | the sort key `lambda x: color_priority[x[1]]`: a token's priority is the index of its colour's tag in the table. The value used for an uncoloured or unranked token is never reached on success; `Sorter.SortByColourOrderCorrect` states that every key of a successful result indexes the token's own tag in the order |
| Sorter.SortByColourOrder | app.py:148-171 | `sort_by_color_order` itself; its contract is stated by `Sorter.SortByColourOrderCorrect` (next row) |
| Sorter.SortByColourOrderCorrect | app.py:148-171 | `Err(SomeObjectsUncoloured)` exactly when some token has no colour. `Ok` exactly when every token has a colour listed in the order; every other error is an `UnrankedColour` whose tag is not in the order. On `Ok` the result: is a permutation of the input; gives each token a key that indexes its own colour tag in the order; is ascending by key; is stable (for every key, the tokens of that key keep their input order); and equals the counting sort over the priorities |
| Sorter.SortedOutput | app.py:163-171 | the `Ok` half of `Sorter.SortByColourOrderCorrect`: a successful result is a permutation of the input, each key indexes the token's own tag in the order, keys ascend, every key's tokens keep their input order, and the result equals the counting sort |
| Sorter.SortNothing | app.py:148-171 | sorting an empty list succeeds with an empty list, whatever the mapping and order |
| Sorter.SortByDefaultOrder | app.py:148-171 | with the default order the sort succeeds iff every token is coloured, and then returns the green tokens, then the blue, then the red, each group in input order |
| Sorter.FilterDefaultIsOfColour | app.py:160-169 | under the default order, the tokens whose priority is a colour's ordinal are exactly that colour's tokens, in input order |
| Sorter.FirstUncoloured | app.py:113-117 | returns `None` iff every token is in the mapping; otherwise returns the first token, in input order, that is not in it |
| StableSort.Sort | app.py:169 | the result is a permutation of the input, in ascending key order |
| StableSort.InsertSorted | app.py:169 | inserting into a key-sorted sequence keeps it sorted |
| StableSort.FilterInsert | app.py:169 | insertion puts the element first among its own key's elements and leaves every other key's elements as they were |
| StableSort.SortStable | app.py:169 | `sorted` is stable: for every key, the elements with that key come out in their input order |
| StableSort.SortIsBuckets | app.py:169 | with all keys below `n`, the stable sort equals the counting sort that lists key 0's elements, then key 1's, and so on |
| StableSort.SortedIsBuckets | app.py:169 | a sorted sequence whose keys lie in `[lo, n)` is its own counting sort |
| Tokenizer.Strip | app.py:84-86 | `str.strip()`: the result is a contiguous slice of the input, with whitespace only around it and non-whitespace at both of its ends |
| Tokenizer.Split | app.py:84-86 | `str.split()` with no separator: every piece is a non-empty run of non-whitespace characters; `Tokenizer.SplitSeparated` states that any run of whitespace separates tokens |
| Tokenizer.SplitAppendSpaced | app.py:84-105 | text that begins with whitespace splits on its own: `Split(a + t) == Split(a) + Split(t)`, so no token runs across the boundary |
| Tokenizer.SplitSeparated | app.py:84-105 | a run of one or more whitespace characters, of any length, is a single separator: `Split(a + w + b) == Split(a) + Split(b)` |
| Tokenizer.SplitStrip | app.py:84-105 | splitting the stripped text gives the same tokens as splitting the raw text |
| Tokenizer.SplitKeepsContent | app.py:84-105 | the tokens, concatenated, are exactly the input's non-whitespace characters, in order |
| Tokenizer.SplitToken | app.py:84-105 | a single token, with no whitespace in it, splits to itself |
| Tokenizer.Join | test_app.py:84-86 | `" ".join(ts)`; its contract is stated by `Tokenizer.SplitJoin` (next row) |
| Tokenizer.SplitJoin | app.py:84-105 | splitting the single-space join of a list of tokens gives that list back |
| Scenarios.BasicSort | test_app.py:90-115 | A B green, C D blue, E F red: sorting "A B C D E F" shows A to F |
| Scenarios.EmptyInputSort | test_app.py:117-130 | an empty objects field gives the input-error outcome, and the result area stays empty |
| Scenarios.NoColoursSort | test_app.py:132-147 | only A B coloured: the sort fails, naming C, and nothing is shown |
| Scenarios.PartialSort | test_app.py:149-165 | A B green, C D blue: the sort fails, naming E |
| Scenarios.SameColourSort | test_app.py:167-191 | A B C all green: the order is unchanged |
| Scenarios.AssignForTest | test_app.py:70-88 | typing the lists, joined by spaces, into the fields and assigning gives `Assigned` of the lists |

## Left out

- Widgets, layout, window title and geometry, the icon, `start_application` and the main loop: these are user-interface code with no logic to verify.
- The text labels are left out. The model records the displayed tokens in `shown`; it does not model the header label or each label's foreground colour (app.py:122-142).
- The `showinfo` and `showerror` dialogs are not modelled; each is an effect on the screen only. On a `KeyError`, `sort_colors` shows a dialog and re-raises. The model returns `Failed(error)` instead: the raise becomes that outcome.
- Blank objects field. For an empty input the code shows an error dialog and returns without raising (app.py:107-111); it does not return an empty result. The model follows the code with a distinct `EmptyInput` outcome. The sorter itself returns an empty result for an empty list (`Sorter.SortNothing`).
- Sort algorithm. Python's `sorted` is Timsort. The model uses a stable insertion sort. Any two stable sorts by the same key give the same result, and `StableSort.SortIsBuckets` proves that this one equals the counting sort.
- Pairing. `sort_by_color_order` sorts (token, tag) pairs and then drops the tags. The model sorts the tokens directly, using a key that looks up each token's tag. Both give the same tokens in the same order.
- Colour storage. The mapping stores a `Colour` value rather than the tag string, because `assign_colors` only ever writes one of the three tags. `Colour.Tag` recovers the string, and `Colours.TagInjective` shows that nothing is lost.
- Integer widths: not relevant. Priorities are list indices.
