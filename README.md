# Echo Verse front end: a Dafny model of its controller logic

Echo Verse is a small React page that sends text to the ElevenLabs text-to-speech service and
plays back the audio it returns. Most of its code is layout. This project models the three
pieces of sequential logic in it and proves what they do:

- **Generation controller** (`generation.dfy`, module `Generation`, from `src/pages/Index.tsx`).
  Class `Page` holds the page's state cells. `generateAudiobook` is split at its `await` into
  two methods. `BeginGenerate` checks the text first, then the API key, raises `isGenerating`
  and builds the request. `FinishGenerate` installs the new audio URL only on success and
  lowers the flag in every case, as the `finally` does. `GenerateAudiobook` runs the two in
  sequence. The network call is the parameter `outcome`, which can be `Ok(url)` or `Fail`.
  The functions beside the class give the request, the Generate button's and the Continue
  button's enable conditions, and the voice catalog. The text panel, the voice selector, the
  Generate button and the player are rendered only once the key card is gone
  (`Index.tsx:158`). So `PlayerView` is `Nothing` while the card is shown, `GenerateClickable`
  is false then, and `BeginGenerate`, `FinishGenerate` and `GenerateAudiobook` require the
  card to be gone.
- **Playback transport** (`audio_player.dfy`, module `Playback`, from
  `src/components/ui/audio-player.tsx`). Class `AudioPlayer` holds the player's state
  (`isPlaying`, `progress`, `duration`, `volume`) and its reference to an `AudioElement`.
  It has methods for play/pause, the "ended", "timeupdate" and "loadedmetadata" listeners,
  the seek slider and the volume slider. The pure parts are `formatTime` (`FormatTime` over
  whole seconds, and `FormatSeconds` over non-negative real times), the slider arithmetic,
  and the choice of view (`ViewFor`).
- **Text ingestion** (`text_input.dfy`, module `TextIngestion`, from
  `src/components/ui/text-input.tsx`). The word count is modelled as the full pipeline
  `trim` → `split(/\s+/)` → filter non-empty → length. It is proved equal to an independent
  count of word starts (`Runs`). The module also has the minutes estimate `ceil(wc / 200)`.
  The lemmas about `split` show that its pieces, joined, are exactly the non-space
  characters, and that only the first and last piece can be empty.
  Class `TextInput` holds the drag-highlight flag, the file-type gate for uploads and drops,
  and Clear.

`options.dfy` holds the `Option` datatype. It stands for `undefined` (for example, no audio
URL yet, or no file chosen).

Whitespace for `trim` and `\s` is the parameter `ws: char -> bool`. It is a constant field of
`Page` and `TextInput`. The model assumes no particular Unicode table, only that `trim` and
`split` use the same one. JavaScript defines both with the same set.

Times, percentages and volumes are exact `real`s. The model has no IEEE rounding.

The code, and so the model, has none of the following:
- A second `generateAudiobook` while one is in flight is not rejected. The only guard is the
  button's `disabled`, which `GenerateButtonEnabled` models.
- Failures are not classified. There is a single `Fail`.
- Old object URLs are never revoked.
- Volume and seek inputs are not clamped.
- There is no "Ended" status. The "ended" event only clears `isPlaying`.
- Playback state is not reset when the URL changes.

The two source lines that set `showApiKeyInput` are the initial `useState(true)` and
Continue's `false`. In the model only `Page.Continue` has `showApiKeyInput` in its `modifies`
clause, and it sets the field to false. So once the card is hidden, it stays hidden.

## Model

| member | source | states |
|---|---|---|
| `Generation.BuildRequest` | narrate-n-flow-main/narrate-n-flow-main/src/pages/Index.tsx:33-46 | the request carries the API key in its key header and the (untrimmed) text as its body text |
| `Generation.RequestConstants` | narrate-n-flow-main/narrate-n-flow-main/src/pages/Index.tsx:33-46 | whatever the inputs, the request is a POST with content type `application/json`, model `eleven_multilingual_v2`, and voice settings stability 0.5 and similarity boost 0.75 |
| `Generation.TargetNamesVoice` | narrate-n-flow-main/narrate-n-flow-main/src/pages/Index.tsx:33 | the target is the fixed endpoint prefix followed by the selected voice: parsing the voice back out of the target gives the selected voice |
| `Generation.TargetInjective` | narrate-n-flow-main/narrate-n-flow-main/src/pages/Index.tsx:33 | two voices that produce the same target URL are the same voice |
| `Generation.GenerateButtonEnabled` | narrate-n-flow-main/narrate-n-flow-main/src/pages/Index.tsx:173 | the Generate button is enabled iff the text has a non-whitespace character and no generation is running |
| `Generation.ContinueButtonEnabled` | narrate-n-flow-main/narrate-n-flow-main/src/pages/Index.tsx:147 | the Continue button is enabled iff the API key has a non-whitespace character |
| `Generation.GenerateEnabledIffWords` | narrate-n-flow-main/narrate-n-flow-main/src/pages/Index.tsx:173 | the Generate button is enabled iff the text panel's word count is positive and no generation is running |
| `Generation.Page.constructor` | narrate-n-flow-main/narrate-n-flow-main/src/pages/Index.tsx:13-18 | initial state: empty text, the default voice (which is in the catalog), no URL, not generating, empty key, key card shown |
| `Generation.Page.PlayerView` | narrate-n-flow-main/narrate-n-flow-main/src/pages/Index.tsx:158-196 | nothing is rendered while the key card is shown; after Continue the player receives the page's `isGenerating` and `audioUrl`: loading while generating, the player iff the card is gone, no generation runs and a URL exists |
| `Generation.Page.GenerateClickable` | narrate-n-flow-main/narrate-n-flow-main/src/pages/Index.tsx:158-173 | the Generate button can be pressed iff the key card is gone, the text panel counts at least one word and no generation is running |
| `Generation.Page.SetText` | narrate-n-flow-main/narrate-n-flow-main/src/pages/Index.tsx:161 | the text panel's callback replaces the text and nothing else |
| `Generation.Page.SelectVoice` | narrate-n-flow-main/narrate-n-flow-main/src/components/ui/voice-selector.tsx:36 | the selector passes only one of its catalog ids; the callback replaces the selected voice and nothing else, so the selected voice stays in the catalog |
| `Generation.Page.SetApiKey` | narrate-n-flow-main/narrate-n-flow-main/src/pages/Index.tsx:142 | typing in the key field replaces the key and nothing else |
| `Generation.Page.Continue` | narrate-n-flow-main/narrate-n-flow-main/src/pages/Index.tsx:146 | Continue sets `showApiKeyInput` to false; it is the only method that writes that field, so the field never becomes true again |
| `Generation.Page.BeginGenerate` | narrate-n-flow-main/narrate-n-flow-main/src/pages/Index.tsx:20-47 | callable only once the key card is gone; blank text gives the "no text" stop whatever the key; otherwise a blank key gives the "no key" stop; neither stop changes any state or sends anything; otherwise `isGenerating` becomes true (the player shows the loading view) and exactly the built request is sent; `isGenerating` is not checked first |
| `Generation.Page.FinishGenerate` | narrate-n-flow-main/narrate-n-flow-main/src/pages/Index.tsx:49-62 | with the key card gone, `isGenerating` is false after every outcome; on success `audioUrl` is the new URL and the player view is shown; on failure `audioUrl` keeps its previous value |
| `Generation.Page.GenerateAudiobook` | narrate-n-flow-main/narrate-n-flow-main/src/pages/Index.tsx:20-63 | a whole run, once the key card is gone: blank text or a blank key sends nothing and leaves `isGenerating` and `audioUrl` unchanged, text checked first; otherwise the built request is sent, `isGenerating` ends false, and `audioUrl` is replaced only on success |
| `Playback.PadStart2` | narrate-n-flow-main/narrate-n-flow-main/src/components/ui/audio-player.tsx:89 | `padStart(2, "0")`: a string of two or more characters is unchanged; a shorter one becomes two characters, ending with it, with zeros in front |
| `Playback.FormatTime` | narrate-n-flow-main/narrate-n-flow-main/src/components/ui/audio-player.tsx:86-90 | the label is a minutes field of digits, a colon, and a seconds field of two digits |
| `Playback.Decimal` | narrate-n-flow-main/narrate-n-flow-main/src/components/ui/audio-player.tsx:89 | `toString` of a natural number is a non-empty digit string with no leading zero except for 0, and has one digit exactly below 10 |
| `Playback.DecimalRoundTrip` | narrate-n-flow-main/narrate-n-flow-main/src/components/ui/audio-player.tsx:89 | the decimal digits of `n` read back as `n` |
| `Playback.FormatTimeFields` | narrate-n-flow-main/narrate-n-flow-main/src/components/ui/audio-player.tsx:86-90 | `formatTime(t)` is the decimal minutes `t / 60`, a colon, and a seconds field of exactly two digits whose value is `t % 60 < 60`; minutes × 60 + seconds = `t` |
| `Playback.FormatParseRoundTrip` | narrate-n-flow-main/narrate-n-flow-main/src/components/ui/audio-player.tsx:86-90 | parsing a formatted `M:SS` label gives the time back |
| `Playback.FormatTimeInjective` | narrate-n-flow-main/narrate-n-flow-main/src/components/ui/audio-player.tsx:86-90 | different whole-second times get different labels |
| `Playback.FormatTimeExamples` | narrate-n-flow-main/narrate-n-flow-main/src/components/ui/audio-player.tsx:87-89 | `formatTime(0) = "0:00"`, `formatTime(60) = "1:00"`, `formatTime(75) = "1:15"` |
| `Playback.FormatSeconds` | narrate-n-flow-main/narrate-n-flow-main/src/components/ui/audio-player.tsx:86-90 | the source's two floors on a non-negative real time give the same label as `FormatTime` of its whole seconds |
| `Playback.FloorsAgree` | narrate-n-flow-main/narrate-n-flow-main/src/components/ui/audio-player.tsx:87-88 | for a non-negative time, `floor(time / 60)` and `floor(time % 60)` are the quotient and remainder of `floor(time)` by 60 |
| `Playback.SeekTime` | narrate-n-flow-main/narrate-n-flow-main/src/components/ui/audio-player.tsx:61 | for a slider value in [0, 100] and a non-negative duration, the seek target lies in [0, duration] |
| `Playback.ProgressOf` | narrate-n-flow-main/narrate-n-flow-main/src/components/ui/audio-player.tsx:26 | for a current time in [0, duration], the progress lies in [0, 100] |
| `Playback.SeekThenProgress` | narrate-n-flow-main/narrate-n-flow-main/src/components/ui/audio-player.tsx:24-28 | seeking to a slider value and computing the progress from the resulting time gives the slider value back |
| `Playback.VolumeOf` | narrate-n-flow-main/narrate-n-flow-main/src/components/ui/audio-player.tsx:70 | the volume is `value / 100`, unclamped: it lies in [0, 1] exactly when the value lies in [0, 100] |
| `Playback.ViewFor` | narrate-n-flow-main/narrate-n-flow-main/src/components/ui/audio-player.tsx:92-114 | while generating, the loading view whatever the URL; otherwise nothing iff there is no URL, the player iff there is one |
| `Playback.AudioElement.Play` | narrate-n-flow-main/narrate-n-flow-main/src/components/ui/audio-player.tsx:52 | `play()` leaves the element unpaused |
| `Playback.AudioElement.Pause` | narrate-n-flow-main/narrate-n-flow-main/src/components/ui/audio-player.tsx:50 | `pause()` leaves the element paused |
| `Playback.AudioPlayer.constructor` | narrate-n-flow-main/narrate-n-flow-main/src/components/ui/audio-player.tsx:14-18 | initial state: not playing, progress 0, duration 0, volume 1, no element |
| `Playback.AudioPlayer.SetRef` | narrate-n-flow-main/narrate-n-flow-main/src/components/ui/audio-player.tsx:118 | the element reference is what React mounted, or null |
| `Playback.AudioPlayer.TogglePlayPause` | narrate-n-flow-main/narrate-n-flow-main/src/components/ui/audio-player.tsx:45-55 | without an element nothing changes; otherwise `isPlaying` flips, the element is paused iff the player was playing and played otherwise, and its time, volume and duration are untouched |
| `Playback.AudioPlayer.OnEnded` | narrate-n-flow-main/narrate-n-flow-main/src/components/ui/audio-player.tsx:36 | the "ended" event leaves `isPlaying` false whatever it was |
| `Playback.AudioPlayer.UpdateProgress` | narrate-n-flow-main/narrate-n-flow-main/src/components/ui/audio-player.tsx:24-28 | while the element's duration is 0 the progress is unchanged; otherwise it is currentTime / duration × 100, in [0, 100] when currentTime ≤ duration |
| `Playback.AudioPlayer.UpdateDuration` | narrate-n-flow-main/narrate-n-flow-main/src/components/ui/audio-player.tsx:30-32 | the state's duration takes the element's |
| `Playback.AudioPlayer.HandleProgressChange` | narrate-n-flow-main/narrate-n-flow-main/src/components/ui/audio-player.tsx:57-64 | a no-op without an element or when the state's duration is 0; otherwise `currentTime = value/100 × duration`, in [0, duration] for values in [0, 100], and `progress = value`; volume, pause state and the element's duration are untouched |
| `Playback.AudioPlayer.HandleVolumeChange` | narrate-n-flow-main/narrate-n-flow-main/src/components/ui/audio-player.tsx:66-73 | a no-op without an element; otherwise element and state both get `value / 100` with no clamping, in [0, 1] for slider values in [0, 100]; playing, progress and duration are untouched |
| `TextIngestion.Trim` | narrate-n-flow-main/narrate-n-flow-main/src/components/ui/text-input.tsx:54 | the trimmed text neither starts nor ends with whitespace |
| `TextIngestion.TrimShape` | narrate-n-flow-main/narrate-n-flow-main/src/components/ui/text-input.tsx:54 | the text is a whitespace prefix, the trimmed text, and a whitespace suffix |
| `TextIngestion.IsBlank` | narrate-n-flow-main/narrate-n-flow-main/src/pages/Index.tsx:21 | `!s.trim()` holds iff every character of `s` is whitespace |
| `TextIngestion.TrimEmptyIffAllSpace` | narrate-n-flow-main/narrate-n-flow-main/src/components/ui/text-input.tsx:54 | `trim()` gives the empty string iff every character is whitespace |
| `TextIngestion.TakeWord` | narrate-n-flow-main/narrate-n-flow-main/src/components/ui/text-input.tsx:54 | the longest whitespace-free prefix: a prefix without whitespace, followed by whitespace or the end |
| `TextIngestion.Split` | narrate-n-flow-main/narrate-n-flow-main/src/components/ui/text-input.tsx:54 | `split(/\s+/)` yields at least one piece and no piece contains whitespace |
| `TextIngestion.SplitConcat` | narrate-n-flow-main/narrate-n-flow-main/src/components/ui/text-input.tsx:54 | the pieces of `split(/\s+/)`, joined in order, are exactly the non-space characters of the string, in order |
| `TextIngestion.SplitInnerPieces` | narrate-n-flow-main/narrate-n-flow-main/src/components/ui/text-input.tsx:54 | every piece other than the first and the last is non-empty; the first is empty iff the string is empty or starts with whitespace |
| `TextIngestion.SplitLastPiece` | narrate-n-flow-main/narrate-n-flow-main/src/components/ui/text-input.tsx:54 | the last piece is empty iff the string is empty or ends with whitespace |
| `TextIngestion.NonEmpty` | narrate-n-flow-main/narrate-n-flow-main/src/components/ui/text-input.tsx:54 | every kept piece is non-empty, and no more pieces come out than went in |
| `TextIngestion.NonEmptyFilters` | narrate-n-flow-main/narrate-n-flow-main/src/components/ui/text-input.tsx:54 | the filter keeps every non-empty piece as often as it occurs and drops every empty one (as multisets: the input with its "" removed); the count is the input length minus the number of "" pieces |
| `TextIngestion.NonEmptyConcat` | narrate-n-flow-main/narrate-n-flow-main/src/components/ui/text-input.tsx:54 | the filter keeps the order: the kept pieces, joined, spell what all the pieces spell |
| `TextIngestion.Runs` | narrate-n-flow-main/narrate-n-flow-main/src/components/ui/text-input.tsx:54 | the count of word starts is at most the length, and is 0 only for empty text or text that starts with whitespace (when read after a space) |
| `TextIngestion.SplitCountsRuns` | narrate-n-flow-main/narrate-n-flow-main/src/components/ui/text-input.tsx:54 | the number of non-empty `split(/\s+/)` pieces of any string equals its number of word starts |
| `TextIngestion.WordCount` | narrate-n-flow-main/narrate-n-flow-main/src/components/ui/text-input.tsx:54 | the word-count pipeline equals the number of maximal runs of non-whitespace characters of the text, so it is at most the text's length |
| `TextIngestion.PipelineCountsRuns` | narrate-n-flow-main/narrate-n-flow-main/src/components/ui/text-input.tsx:54 | splitting the trimmed text and dropping empty pieces leaves one piece per maximal run of non-whitespace characters of the untrimmed text |
| `TextIngestion.WordsSpellText` | narrate-n-flow-main/narrate-n-flow-main/src/components/ui/text-input.tsx:54 | the counted words, joined in order, are exactly the text's non-space characters: the pipeline loses and invents no character |
| `TextIngestion.WordCountZeroIffBlank` | narrate-n-flow-main/narrate-n-flow-main/src/components/ui/text-input.tsx:54 | the word count is 0 iff the text is empty or whitespace only |
| `TextIngestion.WordCountIgnoresPadding` | narrate-n-flow-main/narrate-n-flow-main/src/components/ui/text-input.tsx:54 | leading and trailing whitespace do not change the word count |
| `TextIngestion.WordCountJoin` | narrate-n-flow-main/narrate-n-flow-main/src/components/ui/text-input.tsx:54 | `wc(a + " " + b) = wc(a) + wc(b)` when the space is whitespace |
| `TextIngestion.EstimatedMinutes` | narrate-n-flow-main/narrate-n-flow-main/src/components/ui/text-input.tsx:55 | `ceil(wc / 200)`: 0 iff `wc = 0`, otherwise `(est − 1) × 200 < wc ≤ est × 200` |
| `TextIngestion.ShowsMinutesBadge` | narrate-n-flow-main/narrate-n-flow-main/src/components/ui/text-input.tsx:63 | the minutes badge is shown iff the word count is positive |
| `TextIngestion.IsPlainText` | narrate-n-flow-main/narrate-n-flow-main/src/components/ui/text-input.tsx:18-20 | the upload gate: no file is refused; a file is accepted iff its type is `text/plain` |
| `TextIngestion.IsPlainTextExact` | narrate-n-flow-main/narrate-n-flow-main/src/components/ui/text-input.tsx:35 | the drop gate compares the type exactly: `text/plain` passes; `text/markdown`, `text/plain;charset=utf-8` and the empty type do not |
| `TextIngestion.TextInput.constructor` | narrate-n-flow-main/narrate-n-flow-main/src/components/ui/text-input.tsx:14 | the panel starts with the given text and no drag highlight |
| `TextIngestion.TextInput.Words` | narrate-n-flow-main/narrate-n-flow-main/src/components/ui/text-input.tsx:62 | the badge's count is at most the text length and is 0 iff the text is blank |
| `TextIngestion.TextInput.Edit` | narrate-n-flow-main/narrate-n-flow-main/src/components/ui/text-input.tsx:122 | typing replaces the text |
| `TextIngestion.TextInput.HandleFileUpload` | narrate-n-flow-main/narrate-n-flow-main/src/components/ui/text-input.tsx:16-28 | a `text/plain` file replaces the whole text with its content; no file or another type leaves the text unchanged; the highlight is untouched |
| `TextIngestion.TextInput.HandleDrop` | narrate-n-flow-main/narrate-n-flow-main/src/components/ui/text-input.tsx:30-43 | the highlight goes off; then the same file gate as the picker |
| `TextIngestion.TextInput.HandleDragOver` | narrate-n-flow-main/narrate-n-flow-main/src/components/ui/text-input.tsx:45-48 | the highlight goes on; the text is untouched |
| `TextIngestion.TextInput.HandleDragLeave` | narrate-n-flow-main/narrate-n-flow-main/src/components/ui/text-input.tsx:50-52 | the highlight goes off; the text is untouched |
| `TextIngestion.TextInput.Clear` | narrate-n-flow-main/narrate-n-flow-main/src/components/ui/text-input.tsx:69 | the text becomes "" and its word count is 0 |

## Left out

- The remote service: `fetch`, `response.ok`, `response.blob()` and `URL.createObjectURL` are the single parameter `outcome`. The object URL is an opaque `Url` token. Toasts and console logging are not modelled. They only report which of `NoText`, `NoKey`, success or failure happened.
- Asynchrony: `generateAudiobook` is split at its `await` into `BeginGenerate` and `FinishGenerate`. Events that interleave at that point (typing, or another click while the button is disabled) are calls on `Page` between the two. `GenerateAudiobook` covers only the case where nothing runs in between.
- The values each handler reads from its render's closure are not modelled. The model reads the current fields.
- `FileReader`: the upload and drop handlers read the file asynchronously. In the model the `File` value already carries the text the reader yields, and that text is applied at once.
- The link between the panel's `text` and the page's `text`: `TextInput.text` stands for the prop and its `onTextChange` setter, and `Page.SetText` is the setter itself. Both classes keep their own copy.
- The `useEffect` listener lifecycle (adding and removing listeners when `audioUrl` changes) is not modelled. The listeners are the methods `UpdateProgress`, `UpdateDuration` and `OnEnded`, called on the mounted element.
- `downloadAudio`, the anchor-element download trick, is not modelled.
- The browser's media behaviour is not modelled: its own clock, the promise returned by `play()` (whose rejection is ignored), and the `IndexSizeError` a browser raises for a volume outside [0, 1].
- IEEE floating-point behaviour is not modelled, including a NaN or infinite `audio.duration`.
- The random heights of the loading bars are not modelled.
- Playback.FormatSeconds: only non-negative times are modelled. Every time the player formats is a product of non-negative quantities.
- The time labels under the progress bar are `FormatSeconds` of `SeekTime(progress, duration)` and of `duration`. They are not a separate member.
- Unicode classification of `\s` and of `trim` is left out. It is the parameter `ws`.
- Which parts of the panel are visible is not modelled: the Clear button when the text is non-empty, the upload prompt when it is empty. These are layout.
- The voice selector's rendering is not modelled. Only its six ids are kept, as `VoiceCatalog`.
- All JSX, styling and layout.
