# StoryGen: a Dafny model of the prompt and download handlers

StoryGen is a small desktop tool. The user types a story title and picks a
number of images. "Start Processing" expands the title into that many scene
prompts. "Export Prompts" writes them to a text file, one per line.
"Generate & Download" sends each prompt to a remote image-generation service,
fetches the image it points to, and saves it as `outputs/scene_{i}.jpg`. A
failing item is logged and the loop goes on with the next one.

This project models the window's state and its four button handlers
(`check_api`, `start_processing`, `export_prompts`, `download_images`) in
Dafny and proves what they do.

- `text.dfy`, module `Text`: Python's `str.strip()`, and the decimal
  rendering of scene numbers with a parser that reads it back.
- `prompts.dfy`, module `Prompts`: the scene prompt template, the batch of
  prompts, the preview entries, the progress log lines, and the export file
  content with a line splitter that reads it back.
- `pipeline.dfy`, module `Pipeline`: the per-item answers of the outside
  world (`Reply`), how one item ends (`ItemOutcome`), and the log, file store
  and request trace of a whole batch (`BatchLog`, `BatchStore`,
  `BatchRequests`), with the lemmas about them.
- `app.dfy`, module `StoryGen`: class `StoryGenApp` with fields `prompts`,
  `log`, `preview` and `files`. Each handler is a method with `modifies` and
  a postcondition that gives the new state in terms of the old one and of the
  functions above. The object invariant `Valid()` says that `prompts` is
  always a whole batch and `preview` always lists exactly those prompts.

What the user typed or chose reaches the methods as parameters: the title
text, the spin-box value, the API key text, and the path from the save
dialog (empty when cancelled). The real network is replaced by per-item
answers: for prompt `j`, `replies[j]` says what the POST returned or
raised, what the GET of the returned URL returned or raised, and whether the
file write succeeded or raised. `DownloadImages` returns the requests it
sent. The real file system is replaced by an abstract store, the field
`files`, a map from path to content.

Behaviour of the handlers worth noting:

- An empty title and a missing key each log one line and return. Neither
  raises an error.
- The loop records no outcome list. It writes one log line per item.
- An empty URL in a 200 answer is not a separate case. It goes to
  `requests.get`, and whatever that raises becomes an "Error" line. In the
  model this is a `HasUrl("")` reply together with a fetch result.
- The image count is not checked by the handler. The spin box keeps it in
  1..10, and the model accepts any natural number.

## Model

| member | source | states |
|---|---|---|
| StoryGen.StoryGenApp.constructor | main.py:92 | a new window has no prompts, an empty log and an empty preview; the object invariant holds |
| StoryGen.StoryGenApp.Log | main.py:95-96 | appends exactly the given line to the log and changes nothing else |
| StoryGen.StoryGenApp.CheckApi | main.py:98-103 | appends "✅ API Key loaded." when the trimmed key is non-empty, otherwise "❌ No API key provided."; no other state changes |
| StoryGen.StoryGenApp.StartProcessing | main.py:105-119 | empty trimmed title: one error line, prompts, preview and the recorded batch title and size unchanged; otherwise the recorded title and size become the trimmed title and n, prompts replaced by the n-prompt batch for the trimmed title, preview rebuilt from exactly those prompts, log extended by "Generated prompt 1..n"; files untouched |
| StoryGen.StoryGenApp.ExportPrompts | main.py:121-131 | no prompts: one error line, nothing written; cancelled dialog: nothing changes; otherwise the chosen file holds the export content of the prompts and one confirmation line is logged; when the title has no newline, reading that file back line by line gives exactly the prompts |
| StoryGen.StoryGenApp.DownloadImages | main.py:133-160 | no prompts: "Generate prompts first", no request, whatever the key; empty trimmed key: "API key is missing", no request; otherwise the log, the store and the request trace are exactly those of the batch for the given replies, with header "Bearer " + trimmed key |
| StoryGen.StoryGenApp.DownloadOne | main.py:145-160 | one loop pass: sends the POST (and the GET only after a 200 answer with a URL), changes the store only as the item's outcome says, and appends exactly one log line |
| Text.Trim | main.py:106 | the result has no whitespace at either end, is empty exactly when the input is all whitespace, and is no longer than the input |
| Text.TrimIsInfix | main.py:106 | the stripped text is a contiguous piece of the input and everything removed around it is whitespace |
| Text.TrimIdempotent | main.py:106 | stripping an already stripped text changes nothing |
| Text.NatToString | main.py:116 | a scene number renders as a non-empty run of decimal digits with no leading zero |
| Text.ParseNatToString | main.py:116 | reading a rendered scene number back gives the same number |
| Text.NatToStringInjective | main.py:116 | two scene numbers render the same exactly when they are equal |
| Text.DigitsPrefixUnique | main.py:116 | a number followed by a non-digit is read unambiguously: equal texts give equal numbers and equal remainders |
| Prompts.PromptContainsTitle | main.py:116 | every prompt starts with "Scene " and contains the title verbatim right after "Scene k: Illustration of " |
| Prompts.ScenePromptInjective | main.py:116 | a prompt determines both its scene number and its title |
| Prompts.BuildPromptsSpec | main.py:112-117 | the batch has exactly n prompts; entry j is the prompt of scene j + 1; no two entries are equal |
| Prompts.BuildPromptsNoNewline | main.py:116 | if the title has no newline, no prompt of the batch has one |
| Prompts.PreviewLinesSpec | main.py:118 | one preview entry per prompt; entry j is "Prompt j+1: " followed by prompt j verbatim; no two entries are equal |
| Prompts.PreviewLineInjective | main.py:118 | two preview entries with different numbers are different |
| Prompts.GeneratedLinesSpec | main.py:119 | n progress lines; line j starts with "Generated prompt " and the rest is the number j + 1; no two lines are equal |
| Prompts.ExportContentAppend | main.py:129-130 | writing one more prompt appends that prompt and a newline to the file content |
| Prompts.ExportRoundTrip | main.py:128-130 | reading the exported file line by line gives back exactly the prompts, in order, with no extra line, when no prompt contains a newline |
| Prompts.BatchExportRoundTrip | main.py:128-130 | the exported file of a batch whose title has no newline reads back, line by line, as exactly that batch |
| Prompts.ExportContentShape | main.py:128-130 | the export content is empty exactly when there are no prompts, and otherwise ends with a newline |
| Pipeline.ScenePathInjective | main.py:153 | two scenes share an output file exactly when they are the same scene |
| Pipeline.BatchLogSpec | main.py:145-160 | the batch writes exactly one log line per prompt, in order; line j depends only on reply j |
| Pipeline.ItemLogShape | main.py:156-160 | a log line is the "✅ Downloaded outputs/scene_i.jpg" line exactly when the item downloaded, starts with "❌ Failed for scene " exactly when it was rejected, and starts with "⚠️ Error: " exactly when some step raised |
| Pipeline.BatchStoreSpec | main.py:150-156 | after the batch, each successful scene's file holds exactly the fetched bytes; a failed scene's file and every path outside the batch keep their old content (a write that raises is taken to leave the file as it was, see Left out) |
| Pipeline.BatchStoreScene | main.py:150-156 | the file of scene j + 1 holds item j's fetched bytes when item j downloaded, and its old entry (or absence) otherwise |
| Pipeline.BatchStoreOutside | main.py:153-155 | a path that is no scene file of the batch keeps its old entry, or stays absent |
| Pipeline.FailureIsolation | main.py:145-160 | an item's log line and file are the same whatever the other items' replies were (a write that raises is taken to leave the file as it was, see Left out) |
| Pipeline.ItemRequestsSpec | main.py:146-152 | per item: exactly one POST with the prompt, "veo-3" and the authorization header; a GET of the returned URL exactly when the POST answered 200 with a URL, and otherwise (raised POST, malformed answer, rejection) the POST alone |
| Pipeline.BatchPostsSpec | main.py:143-148 | over the batch, the POSTs are one per prompt, in prompt order, all carrying the same authorization header |

## Left out

- Widget construction, layout and the application entry point (main.py:11-90, 162-166). These are presentation only. The quality box and the Stop button are not read by any handler.
- `os.makedirs("outputs")` (main.py:93): the store is a flat map from path to content and has no directories.
- The HTTP client and the JSON decoder. Their results are the `Reply` inputs. `response.json()["data"][0]["url"]` is either a URL or the message of what it raised.
- Hanging requests: `requests.post` and `requests.get` (main.py:148, 152) are called without a timeout, so a call may block forever. The model assumes every call either returns or raises.
- The file dialog: its answer is the `chosenPath` parameter.
- Text encoding: the exported UTF-8 text file is stored as its characters (`TextFile`), and images as bytes (`Binary`). The file is opened in text mode, so on Windows each newline is written as "\r\n"; the model gives the content with plain newlines.
- StoryGen.StoryGenApp.DownloadOne: a write that raises after `open(..., "wb")` has already truncated or partly written the file is modelled as leaving the store unchanged.
- StoryGen.StoryGenApp.ExportPrompts: a failure to open or write the export file is not modelled. In the source that exception is not caught by the handler.
- StoryGen.StoryGenApp.DownloadImages: it requires one reply per prompt. This constrains the model of the outside world, not the callers of the handler.
- Text.Trim: it uses Python 3's fixed set of whitespace characters, written out in `Text.IsSpace`. The Unicode database behind `str.isspace` is not consulted.
