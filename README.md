# Lumi-reMatch: a verified model of the moodboard controller and analysis client

Lumi-reMatch lets a couple upload up to five wedding-inspiration images. It sends them to the Gemini
model for an aesthetic analysis and shows the photographers of a small mock directory that the
analysis matches. This project models the two pieces that carry logic:

- **The controller in `App.tsx`** (`Controller.Session`). It is a class whose fields are the
  application's state variables: `view`, `uploadedImages`, `analysisResult`,
  `selectedPhotographerId` and `analysisState`. Two more fields model the rest of the session.
  `ticker` is the interval counter `stepIndex`. `pending` is the point where the suspended
  `handleAnalysis` call waits: for the file reads or for the match. Each handler is a method. Its
  `requires` is the condition under which the source renders the control that calls it. Its
  `ensures` states the complete new state, and every method keeps the invariant `Valid()`.
  Pure helpers sit beside the class:
  - the upload selection `handleFiles`/`removeFile` (module `Upload`);
  - the directory lookup and the cards of the results screen (module `Results`);
  - the step ticker (module `StepTicker`);
  - the loader's data URL and the back-navigation map.
- **The pure parts of `services/geminiService.ts`** (module `Gemini`):
  - the payload of a data URL, taken by `split(',')[1]`;
  - the directory summary sent as context;
  - the request parts;
  - the parse-or-fallback handling of the reply.

  The service is an input: a function from the request to its reply, which is `Failed` or
  `Answered(text, parsed)`.

The data URL built at `App.tsx:467` has the form of section 3 of RFC 2397,
`data:<mime>;base64,<payload>`. `Controller.DataUrlRoundTrip` proves that extracting the payload of
that URL returns the payload, provided neither the type nor the payload contains a comma.

Four behaviours of the code shape the model:

- Selecting a photographer does not check the id: the view becomes `PROFILE` whatever the id. The
  profile renders only when the id resolves. `Session.SelectPhotographer` proves that the profile is
  shown if and only if the id resolves. `Controller.CardsOpenProfiles` proves that every clickable
  card carries an id that resolves.
- The loader is an overlay over `UPLOAD`, not a view of its own: `isAnalyzing` raises it and the
  view stays `UPLOAD`. Only a failed file read reaches the catch block of `handleAnalysis`, because
  the analysis service never throws. The catch block lowers the overlay and leaves the view on
  `UPLOAD`.
- Reset does not clear `analysisState`, so its label stays `'complete'`.
- Back from the booking confirmation goes to `HOME` without clearing anything.

## Model

| member | source | states |
|---|---|---|
| `Upload.HandleFiles` | App.tsx:129-134 | a null file list changes nothing; otherwise the result holds at most 5 files, exactly min(5, selected + picked) of them, and is a prefix of the selection followed by the picked files |
| `Upload.HandleFilesAppends` | App.tsx:129-134 | a selection within the cap stays as a prefix in its order, followed by the first picked files that still fit |
| `Upload.RemoveFile` | App.tsx:136-138 | for an index in range, exactly that element is removed and the rest keep their order; an out-of-range index (negative or too large) leaves the list unchanged |
| `Upload.RemoveFileFreesOnePlace` | App.tsx:136-138 | removing a file shortens the list by one, and a newly picked file is then appended at the end |
| `Constants.DirectoryIdsDistinct` | constants.ts:3-94 | no two directory entries share an id |
| `Results.Find` | App.tsx:272 | the lookup fails exactly when no entry has the id; a found entry is in the directory and has that id |
| `Results.FindIsFirst` | App.tsx:461-463 | the lookup returns the first entry that has the id |
| `Results.Cards` | App.tsx:271-314 | there are at most as many cards as matches; each card's match is one of the matches, and its photographer is the one the match's id resolves to; each card shows at most 3 key elements, a prefix of the detected ones |
| `Results.CardOf` | App.tsx:272-273 | a match renders no card exactly when its id does not resolve; otherwise one card for that match, with the resolved photographer and at most 3 of its key elements |
| `Results.CardsAppend` | App.tsx:271-273 | cards of concatenated match lists are the concatenated cards, so cards keep the matches' order |
| `Results.CardsComplete` | App.tsx:271-313 | every match whose id resolves gets its card, with its key elements cut to 3 |
| `Results.CardsAllResolved` | App.tsx:271-273 | when every id resolves there is exactly one card per match |
| `StepTicker.Tick` | App.tsx:435-442 | a cleared interval does not move; a live one advances the counter by one, stays live while the counter is below the number of labels, and clears itself on the firing after the last label |
| `StepTicker.Label` | App.tsx:436-438 | the label shown is always one of INITIAL_ANALYSIS_STEPS |
| `StepTicker.AfterFirings` | App.tsx:434-442 | after k firings the counter is min(k, 5) and the interval is live exactly while k < 5 |
| `StepTicker.AfterMonotone` | App.tsx:434-442 | the counter never decreases and never exceeds 5, and a cleared ticker never changes again |
| `Gemini.Split` | services/geminiService.ts:17 | `split` returns at least one piece; exactly one piece when the separator is absent; no piece contains the separator |
| `Gemini.SplitWithout` | services/geminiService.ts:17 | text without the separator splits into itself |
| `Gemini.SplitAtFirst` | services/geminiService.ts:17 | the first separator ends the first piece; the remainder is split on its own |
| `Gemini.Payload` | services/geminiService.ts:17 | element 1 of the split is undefined exactly when there is no comma; when defined it holds no comma |
| `Gemini.PayloadAfterComma` | services/geminiService.ts:16-17 | with one comma, the stored payload is all the text after it |
| `Gemini.FileToGenerativePart` | services/geminiService.ts:12-23 | succeeds exactly when the reader produced a URL with a comma; `mimeType` is the file's type and `data` is the URL's payload |
| `Gemini.DatabaseContext` | services/geminiService.ts:33-39 | the context sent has one summary per directory entry, in order, with the entry's id and tags |
| `Gemini.Summaries` | services/geminiService.ts:33-39 | the context has the directory's length and order, and each entry copies id, name, style, tags and description |
| `Gemini.ImageParts` | services/geminiService.ts:95-100 | one inline part per image, in order, with mime type and data unchanged |
| `Gemini.Parts` | services/geminiService.ts:95-105 | images.length + 1 parts; the inline parts come first and the last part is the instruction, which carries the image count and the directory context |
| `Gemini.PartsCarryImages` | services/geminiService.ts:95-105 | reading the inline parts back gives exactly the input images, in order |
| `Gemini.BuildRequest` | services/geminiService.ts:102-112 | the request sent carries exactly the assembled parts, so every image reaches the model unchanged and in order; it names model `gemini-2.5-flash`, asks for a JSON response and uses temperature 0.4 |
| `Gemini.Fallback` | services/geminiService.ts:123-136 | the fallback has the 5-colour palette, keywords Romantic/Timeless/Soft, venue "Garden / Outdoor", lighting "Natural Light", and one match `p2` scoring 85 with 2 key elements |
| `Gemini.FindMatchingPhotographers` | services/geminiService.ts:94-137 | never fails. The reply considered is the service's answer to the request built from the images. The result is the fallback or that reply's own parsed analysis. A failed call, an absent or empty text, or a parse failure yields the fallback; a usable reply is returned as parsed |
| `Controller.EncodeFiles` | App.tsx:430 | fails exactly when some file fails to encode; otherwise gives one image per file, in order, each that file's encoding |
| `Controller.LoaderBackground` | App.tsx:466-468 | the loader background is empty exactly when no image is uploaded; otherwise it is a `data:` URL |
| `Controller.DataUrl` | App.tsx:467 | the loader URL starts with `data:` and ends with the image's payload |
| `Controller.DataUrlRoundTrip` | App.tsx:467 | for a type and payload without commas, `split(',')[1]` of the built data URL returns the payload |
| `Controller.LoaderBackgroundRoundTrip` | App.tsx:466-468 | encoding the loader's data URL as a file of the first image's type gives back the first image |
| `Controller.BackTarget` | App.tsx:478-482 | back goes PROFILE to RESULTS and RESULTS to UPLOAD; every other view goes to HOME (each direction is an if-and-only-if) |
| `Controller.FallbackShowsOneCard` | services/geminiService.ts:128-135 | the fallback's only match resolves in the directory, so a fallback result renders exactly one card |
| `Controller.ContextIdsResolve` | services/geminiService.ts:33-39 | every id offered to the model as context resolves to its own directory entry |
| `Controller.CardsOpenProfiles` | App.tsx:279 | every clicked card carries an id that resolves, so the profile it opens renders |
| `Controller.Session.SelectedPhotographer` | App.tsx:461-463 | a selected photographer carries the selected id and is a directory entry |
| `Controller.Session.BackShown` | App.tsx:474 | the back button is shown only off HOME and while not analyzing, and there it always leads to a different view |
| `Controller.Session.ProfileShown` | App.tsx:510 | the profile renders only on PROFILE with a selected id that resolves in the directory |
| `Controller.Session.LoaderShowsListedStep` | App.tsx:427-438 | while the overlay is up, its label is one of INITIAL_ANALYSIS_STEPS |
| `Controller.Session.constructor` | App.tsx:419-423 | the session starts on HOME with no images, no result, no selection and the overlay down |
| `Controller.Session.Start` | App.tsx:489 | start moves HOME to UPLOAD and changes nothing else |
| `Controller.Session.Back` | App.tsx:474-482 | back is available only off HOME and while not analyzing; it applies the back map and changes nothing else |
| `Controller.Session.StartAnalysis` | App.tsx:425-430 | from the upload screen, with the 1 to 5 files the analyze button submits, raises the overlay on the first label and awaits the file reads; the session never holds more than 5 images |
| `Controller.Session.FinishReading` | App.tsx:425-458 | a failed read lowers the overlay with an empty label and leaves view, images and result unchanged; success stores the images in order and starts the ticker |
| `Controller.Session.TickStep` | App.tsx:435-442 | one interval firing advances the ticker and shows its label; the overlay stays up |
| `Controller.Session.CompleteAnalysis` | App.tsx:445-452 | stores the analysis the service returns for the uploaded images, lowers the overlay on 'complete', stops the ticker and opens RESULTS |
| `Controller.Session.SelectPhotographer` | App.tsx:503-506 | stores the id and opens PROFILE; the profile is shown if and only if the id resolves in the directory |
| `Controller.Session.Book` | App.tsx:510-514 | from a shown profile, opens the booking confirmation and changes nothing else |
| `Controller.Session.Reset` | App.tsx:518-523 | clears images, analysis and selection, returns to HOME, and leaves the loader background empty |

## Left out

- JSX rendering, styling, icons and navigation-bar titles: presentation only.
- `FileReader`, `URL.createObjectURL`/`revokeObjectURL` and the preview effect are browser I/O. A
  picked file is modelled by its MIME type and the data-URL string the reader produced, or by a read
  failure.
- Gemini.FileToGenerativePart: a reader result without a comma is modelled as a failed read. The
  source would resolve with an undefined `data` field instead. A non-empty file's data URL always
  contains a comma, but a zero-byte file can read as the bare text `data:`. On that input the
  model's `Controller.EncodeFiles` fails and `Session.FinishReading` takes the failure path: the
  overlay comes down with an empty label and the view stays on UPLOAD. The source instead stores the
  image with undefined data, goes on to the analysis and opens RESULTS.
- The Gemini call, the API key lookup, the response schema object and `JSON.parse` belong to a
  foreign service. The service is a parameter, a function from the request to its reply: a failed call, or a text together with the outcome of
  parsing it. An absent `response.text` is represented as the empty text, since both are falsy.
- Gemini.FindMatchingPhotographers: JSON that parses but does not fit the schema cannot be
  represented, because a parsed reply is always a `MoodboardAnalysis`. The source only casts the
  parsed value and passes it through unchecked. A text of `null` would then store `null` and show
  nothing on the results screen. A text of `{}` would make the results screen throw while
  rendering. The model's "always an analysis to show" holds only for replies that fit the schema.
- The wording of the instruction text. Only the two values interpolated into it are modelled: the
  image count and the directory summary.
- The sampling temperature 0.4 is kept as an exact real number. The model does not represent
  floating-point rounding.
- `setInterval`/`setTimeout` timing (1200 ms, 5000 ms) and the concurrency of the ticker with the
  request. One interval firing is one `TickStep`. The reply's arrival and the 5-second delayed
  completion form one event, `CompleteAnalysis`. Ticks that fall within the delay are the same
  `TickStep` events.
- `alert` and `console.error` side effects.
- The photographers' floating-point `rating` values.
- The upload screen's own list is kept by the caller and passed to `StartAnalysis`. `handleFiles`
  and `removeFile` are modelled as the functions their state setters apply.
