# AI Image Captioning — a Dafny model of the caption request and the window controller

The application is one desktop window. The user picks an image, may type a
short description, and presses "Generate Caption". A background worker then
posts the image (base64) and a prompt to a local Ollama server
(`http://localhost:11434/api/generate`, model `llava-phi3:latest`) and hands
back one caption string, which the window shows.

This project models the two pieces of logic in `main.py`:

- **Transport** (`transport.dfy`): the worker's `run`. It builds the
  prompt, the JSON payload and the request. It then maps what happened to
  exactly one caption: the `response` member of a 200, the fallback
  `"No caption generated."`, `"Error: "` plus the body of any other status,
  or `"Failed to connect to Ollama: "` plus the text of any exception.
  Reading the file, base64, the HTTP POST and JSON decoding are the fields
  of an environment `Env`, passed in as functions. Each of them may fail,
  except base64.
- **Controller** (`controller.dfy`): `ImageCaptionApp` without its widgets.
  It becomes the class `CaptionApp` with four fields: `imagePath`,
  `generateEnabled`, `labelText` (the status label) and `captionText` (the
  caption box). The methods are `UploadImage`, `StartCaptionGeneration` and
  `DisplayCaption`, plus `ClickGenerate` for a click on the button, which the
  toolkit delivers only while the button is enabled. The dialog's answer and
  the description box's text are parameters. A started worker is returned.
  It runs later, when the caller passes its caption to `DisplayCaption`.
- **PyText** (`pytext.dfy`): Python's `str.strip()`, which is applied to the
  description text. It uses CPython's whitespace set.
- **Wrappers** (`wrappers.dfy`): `Option`.

## Behaviour worth noting

- A 200 whose `response` member is `""` yields the empty caption. `Transport.Run` states exactly when the caption is empty.
- Nothing keeps a single request in flight. `upload_image` re-enables the button at any time, including during a generation (main.py:110). `Controller.UploadDuringGeneration` shows a second worker starting before the first one's caption is displayed.
- Starting without an image still changes the status label, to "Please upload an image first." (main.py:114).
- A 200 whose body is not valid JSON raises inside the `try`. It is therefore reported as "Failed to connect to Ollama: …", not as a server error.

## Model

| member | source | states |
|---|---|---|
| PyText.IsSpace | main.py:120 | the whitespace set of `str.strip()`: it takes in the ASCII blanks and never takes in a letter or digit |
| PyText.SkipLeading | main.py:120 | the scan from the front passes only whitespace and stops at the first non-whitespace character or the end |
| PyText.SkipTrailing | main.py:120 | the scan from the back passes only whitespace and stops just after the last non-whitespace character, or at the start |
| PyText.SkipLeadingStops | main.py:120 | after any run of whitespace, the front scan stops exactly at the first non-whitespace character |
| PyText.SkipTrailingStops | main.py:120 | before any run of whitespace, the back scan stops exactly after the last non-whitespace character |
| PyText.Strip | main.py:120 | the stripped description has no leading or trailing whitespace, is a slice of the text, and only whitespace was removed around it |
| PyText.StripCharacterized | main.py:120 | whenever the text splits into whitespace, a trimmed middle and whitespace, strip returns exactly that middle |
| PyText.StripIdempotent | main.py:120 | stripping an already stripped description changes nothing |
| PyText.StripFixedPoint | main.py:120 | strip leaves a text unchanged exactly when it neither starts nor ends with whitespace |
| PyText.StripEmpty | main.py:120 | the stripped description is empty exactly when the text is all whitespace |
| Transport.Prompt | main.py:26-28 | the prompt always starts with the fixed instruction, and it is the bare instruction exactly when the description is empty |
| Transport.PromptRoundTrip | main.py:26-28 | the description can be read back out of the prompt: instruction, " The user describes it as: ", description, "." |
| Transport.DescriptionOfSound | main.py:26-28 | any prompt the reader accepts is the prompt built from the description it reads out |
| Transport.PromptInjective | main.py:26-28 | different descriptions give different prompts |
| Transport.BuildPayload | main.py:30-35 | the payload names model "llava-phi3:latest", turns streaming off, carries exactly the one image, and its prompt gives back the description |
| Transport.BuildRequest | main.py:20-37 | the request goes to the fixed URL as application/json, carries exactly the one image, and its prompt gives back the description |
| Transport.RequestShape | main.py:20-35 | the request goes to the fixed URL as application/json with model "llava-phi3:latest", stream false, exactly one image, and the prompt of the description |
| Transport.RequestInjective | main.py:30-35 | two requests are equal only when their image and description are equal |
| Transport.SentRequest | main.py:23-37 | a request is sent exactly when the image file could be read, and it carries the encoding of that file's bytes |
| Transport.Exchange | main.py:19-45 | a status outcome is never 200, and only an exception can end the exchange before a request is sent |
| Transport.Caption | main.py:39-45 | the caption is empty exactly when a 200 carried an empty `response` member |
| Transport.FailureCaptionsDistinct | main.py:41-45 | a server-error caption never equals a connection-failure caption |
| Transport.FailureCaptionDetail | main.py:41-45 | a failure caption is its fixed prefix followed by exactly the server body or the exception text |
| Transport.Run | main.py:18-47 | for every modelled outcome the worker emits exactly one caption and raises nothing; the caption is empty only when the server answered 200 with an empty `response` |
| Transport.RunSuccess | main.py:39-40 | a 200 with a `response` member yields exactly that member |
| Transport.RunNoField | main.py:39-40 | a 200 without `response` yields exactly "No caption generated." |
| Transport.RunServerError | main.py:41-42 | any other status yields exactly "Error: " followed by the raw response body |
| Transport.RunRaised | main.py:19-45 | an exception from the file read, the POST or the JSON decoding of a 200 yields exactly "Failed to connect to Ollama: " followed by its text |
| Transport.RunSendsOwnImage | main.py:23-35 | the request carries exactly one image, the encoding of the worker's own file, and the worker's description |
| Controller.HasImage | main.py:113 | the truth test on the stored path: false exactly for no path and for the empty path |
| Controller.CaptionApp.constructor | main.py:52-84 | initially there is no image, the button is disabled, the label invites an upload, and the caption box reads "Caption will appear here." |
| Controller.CaptionApp.UploadImage | main.py:100-110 | a non-empty file name is stored, sets the "Image uploaded!" label and enables the button whatever the prior state; a cancelled dialog changes no field |
| Controller.CaptionApp.StartCaptionGeneration | main.py:112-123 | with no stored path only the label changes and no worker starts; otherwise the button is disabled, the label says it is generating, and exactly one worker starts on the stored path and the stripped description |
| Controller.CaptionApp.ClickGenerate | main.py:73-75 | a click while the button is disabled changes nothing and starts no worker; otherwise it behaves as StartCaptionGeneration |
| Controller.CaptionApp.DisplayCaption | main.py:125-128 | the caption box holds exactly the caption, the label says "Caption generated!" and the button is enabled again |
| Controller.GenerateBeforeUpload | main.py:112-115 | in a fresh window neither a click nor a direct call starts a worker, and no image gets selected |
| Controller.CancelledUpload | main.py:100-110 | cancelling the dialog in a fresh window leaves no image, the button disabled and the initial label |
| Controller.LastUploadWins | main.py:100-123 | after choosing image A and then image B, the worker is started on B |
| Controller.ClickWhileGenerating | main.py:117-118 | while a generation runs, a second click starts no worker |
| Controller.UploadDuringGeneration | main.py:109-118 | an upload during a generation re-enables the button, so a second worker starts while the first is still running |
| Controller.GenerateCycle | main.py:100-128 | upload, click and display leave the window showing exactly the worker's caption for this path and stripped text, with the button enabled |

## Left out

- Widget construction, layout, styling, `QPixmap` loading and scaling (main.py:55-98, 105-108). They are toolkit code with no state beyond the four modelled fields.
- The file dialog (main.py:101). Its answer is the parameter of `UploadImage`; `""` stands for a cancelled dialog.
- The file read and `base64.b64encode` (main.py:23-24). They are the `readFile` and `encode` fields of `Env`. Base64 itself (section 4 of RFC 4648) is not modelled.
- `requests.post` and `response.json()` (main.py:37-40). They are the `post` and `parseJson` fields of `Env`. A JSON body that is not an object (so that `.get` would raise) is reported by `parseJson` as a failure, like malformed JSON.
- Transport.Run: does not model a `response` member that is present but is not a string (JSON `null`, a number, a list). `Parsed` carries only strings. In the program, `emit` (main.py:47) runs outside the `try`, so emitting such a value can raise out of `run`. Then no caption is emitted, `display_caption` never runs, and the button stays disabled.
- The text of an exception, `str(e)`, and the decoding of `response.text`. These are plain strings supplied by `Env`.
- `QThread`, `pyqtSignal`, and the overwrite of `self.thread` (main.py:10-11, 121-123). They are concurrency machinery. The handoff is sequential: `StartCaptionGeneration` returns the worker, and the caller later passes its caption to `DisplayCaption`. Several workers alive at once, and the order in which their captions arrive, are not modelled.
- The HTTP headers dict becomes the `contentType` field of `Request`. Client timeouts and other defaults of the HTTP library are outside the model.
- The application start-up (main.py:130-133).
