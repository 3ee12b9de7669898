# Task-list PDF builder: a Dafny model of the story construction

The repository turns a JSON object of categories, each a list of task strings,
into a printable PDF checklist. Two scripts do this: `generate_tasks_list.py`,
which takes a period argument (`day`, `week` or `month`), and
`generate_daily_tasks.py`, which has a fixed input, output and title. Both
build the same "story" before handing it to the PDF renderer. The story is the
list of layout elements: a title paragraph, then for each category a heading
paragraph, one paragraph per task with a U+2610 ballot-box bullet, and a
spacer. A final spacer is popped so that the document does not end on a blank
page.

The model has four modules:

- `Wrappers` (wrappers.dfy): the `Option` type.
- `StoryBuilder` (story.dfy): the element datatype `Flowable` and the catalog
  type. `Story(title, c)` is the specification of the story. `BuildStory` is
  the imperative builder: two nested append loops, then the conditional pop.
  It is proved equal to `Story`. The rest of the module is the independent
  reference `Joined` (spacers only between categories), counting helpers
  (`TaskCount`, `LineCount`, `Spacers`, `Headings`, `Names`, `Start`), and
  lemmas about `Story` and its parts.
- `TasksList` (tasks_list.dfy): the period argument, the if-chain that picks
  the (input, output, title) triple, the guarded load and the run.
- `DailyTasks` (daily_tasks.dfy): the fixed constants, the unguarded load and
  the run.

The working directory is modelled as `map<string, Catalog>`. A key is a file
that exists, mapped to the catalog it parses to. A name that is not a key is a
missing file. A JSON object is a sequence of `Category(name, tasks)` in the
object's key order.

The two scripts have identical story loops (`generate_tasks_list.py:109-118`
and `generate_daily_tasks.py:75-84`). Only the title expression differs. Both
`Generate` methods therefore call the one `StoryBuilder.BuildStory`.
`DailyTasks.SameStoryAsDayPeriod` states that the daily script builds the same
story as the `day` period.

Determinism of the story holds by construction: each `Generate` method's
result is a function of its inputs only (`Story(title, catalog)`).

## Model

| member | source | states |
|---|---|---|
| `StoryBuilder.BuildStory` | generate_tasks_list.py:109-118 | Appending the title, then for each category in order its heading, its bulleted tasks and a spacer, and then popping a trailing spacer, yields exactly `Story(title, catalog)`. |
| `StoryBuilder.TrimDropsOnlyTrailingSpacer` | generate_tasks_list.py:116-118 | The pop removes at most one element. It removes one exactly when the last element is a spacer. Every remaining element is unchanged (the result is a prefix of the input). |
| `StoryBuilder.StoryIsTitleThenJoined` | generate_tasks_list.py:109-118 | The story is the title followed by the category blocks with exactly one spacer between consecutive categories and none after the last. |
| `StoryBuilder.SectionsJoined` | generate_tasks_list.py:110-114 | Before the trim, the loop's output for a non-empty catalog is the spacer-separated blocks plus one trailing spacer. |
| `StoryBuilder.StoryTitleFirstAndOnly` | generate_tasks_list.py:109 | The first element is `Title(title)`, and no later element is a title. |
| `StoryBuilder.StoryDoesNotEndWithSpacer` | generate_tasks_list.py:116-118 | The story is non-empty and its last element is never a spacer. |
| `StoryBuilder.StoryLength` | generate_tasks_list.py:109-118 | The story length is 1 + Σ over categories of (1 + number of tasks) + max(n-1, 0). |
| `StoryBuilder.StorySpacerCount` | generate_tasks_list.py:114-118 | The story holds n-1 spacers for n ≥ 1 categories and none for an empty catalog. |
| `StoryBuilder.StoryHeadingsInOrder` | generate_tasks_list.py:110-111 | The heading texts of the story, in order, are exactly the category names in catalog order. |
| `StoryBuilder.SectionAt` | generate_tasks_list.py:110-118 | Category i's heading stands at `Start(c, i)`. Its tasks follow immediately, in list order, each with bullet U+2610. A spacer follows them when another category comes next, and the next heading comes right after that spacer. The story ends there when the category is the last one. An empty category still yields its heading. |
| `StoryBuilder.SplitAt` | generate_tasks_list.py:110-114 | Before the trim, the loop output splits at category i into the elements of earlier categories, which fill `Start(c, i)` positions, then its block and spacer, then the rest. |
| `StoryBuilder.SectionsAppend` | generate_tasks_list.py:110-114 | The category loop is compositional: the loop's output over a concatenated catalog is the concatenation of its outputs over the parts. |
| `StoryBuilder.SectionsLength` | generate_tasks_list.py:110-114 | Before the trim, each category contributes 2 + its task count elements. |
| `StoryBuilder.ExampleStory` | generate_daily_tasks.py:75-84 | For {"Health": ["Drink water", "Stretch"], "Work": ["Email"]} and title "Daily Tasks", the story is Title, Heading Health, its two tasks, Spacer(1, 12), Heading Work, its task, and no trailing spacer. |
| `TasksList.ParsePeriod` | generate_tasks_list.py:39-44 | An argument is accepted if and only if it is `day`, `week` or `month`, and the period accepted is the one spelled by that argument. |
| `TasksList.ParseArgumentOf` | generate_tasks_list.py:39-43 | Each period's spelling is accepted and parses back to that period. |
| `TasksList.RequestsDistinct` | generate_tasks_list.py:47-58 | Distinct periods select distinct input files, distinct output files and distinct titles. |
| `TasksList.Generate` | generate_tasks_list.py:46-118 | Each period gets its fixed (input, output, title) triple. If the input file is missing, the run ends with that file name and no story is built. Otherwise the story for the selected title and the file's catalog goes to the selected output PDF. |
| `DailyTasks.Generate` | generate_daily_tasks.py:14-84 | There is no guard: a missing `example_daily_tasks.json` propagates as FileNotFoundError and no story is built. Otherwise the story titled "Daily Tasks" goes to `Daily_Tasks.pdf`. |
| `DailyTasks.SameStoryAsDayPeriod` | generate_daily_tasks.py:14-16 | The daily script reads the same input as the `day` period and builds the same story from any catalog. Its output file name differs from the `day` period's. |

## Left out

- PDF rendering and pagination (`SimpleDocTemplate`, `doc.build`): foreign library calls. The model stops at the story handed to the renderer.
- Paragraph styles (fonts, sizes, leading, indents, alignment): opaque configuration for the renderer. Only the element kind and its text are modelled. A spacer keeps its 1 × 12 point size.
- Font registration at import time, footer drawing and `os.path.abspath`: global library state, canvas drawing and OS path resolution.
- File opening and JSON parsing: the parsed catalog is an input (the `files` map). Malformed JSON, non-list values and non-string tasks are not modelled. A JSON object's keys are distinct, but the model does not rely on that.
- Argument-parser error output and exit status for a rejected period, and every `print` line (progress, success, missing-file message): console I/O. The missing-file outcome carries the file name the message names.
- `TasksList.Generate`: the absence of an output PDF on the missing-input path is expressed by the outcome carrying no story. File creation itself is not modelled.
- `TasksList.Generate`: element text is treated as opaque. The renderer's `Paragraph` constructor parses its text as inline markup and raises `ValueError` on malformed markup (an unclosed tag such as `<b>Email`), before any PDF is written. That error path is not modelled, so the contract promises a built story for every catalog whose input file exists.
- `DailyTasks.Generate`: the same applies. The `ValueError` from the renderer's markup parsing of a title, heading or task text is not modelled.
