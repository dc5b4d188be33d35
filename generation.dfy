/**
 * Generation controller: the page that sends the text to the remote text-to-speech service
 * and hands the resulting audio URL to the player.
 *
 * `generateAudiobook` suspends at its `await fetch(...)`; the model splits it there into
 * `BeginGenerate` (the guards, raising the flag, building the request) and `FinishGenerate`
 * (the outcome of the request and the `finally`). The remote call itself is the parameter
 * `outcome`, which may be any `Ok(url)` or `Fail`.
 */
module Generation {
  import opened Options
  import opened TextIngestion
  import opened Playback

  // ---------------------------------------------------------------------------
  // The voice catalog and the request

  const DefaultVoice: string := "9BWtsMINqrJLrRacOk9x"

  /** The ids the voice selector offers. */
  const VoiceCatalog: set<string> := {
    "9BWtsMINqrJLrRacOk9x", "CwhRBWXzGAHq8TQ4Fs17", "EXAVITQu4vr4xnSDxMaL",
    "FGY2WhTYpPnrIDTdsKH5", "IKne3meq5aSn9XLyUdCD", "JBFqnCBsd6RMkjVDRZzb"
  }

  const EndpointPrefix: string := "https://api.elevenlabs.io/v1/text-to-speech/"
  const ModelId: string := "eleven_multilingual_v2"
  const Stability: real := 0.5
  const SimilarityBoost: real := 0.75

  datatype VoiceSettings = VoiceSettings(stability: real, similarityBoost: real)

  /** The JSON body of the request. */
  datatype Body = Body(text: string, modelId: string, voiceSettings: VoiceSettings)

  /** The POST request: target URL, the `xi-api-key` header, the content type and the body. */
  datatype Request = Request(httpMethod: string, target: string, apiKey: string, contentType: string, body: Body)

  /** What came back: an object URL for the audio blob, or any failure (a non-ok response,
      a thrown `fetch`, a failed `blob()`), which the source handles in one `catch`. */
  datatype Outcome = Ok(url: Url) | Fail

  /** The request for the given text, voice and key; text and key are sent untrimmed. */
  function BuildRequest(text: string, voice: string, apiKey: string): (r: Request)
    ensures r.apiKey == apiKey && r.body.text == text
  {
    Request("POST", EndpointPrefix + voice, apiKey, "application/json",
      Body(text, ModelId, VoiceSettings(Stability, SimilarityBoost)))
  }

  /** Whatever the text, voice and key, the request is a JSON POST for the multilingual v2
      model with stability 0.5 and similarity boost 0.75. */
  lemma RequestConstants(text: string, voice: string, apiKey: string)
    ensures var r := BuildRequest(text, voice, apiKey);
      r.httpMethod == "POST" && r.contentType == "application/json" &&
      r.body.modelId == "eleven_multilingual_v2" && r.body.voiceSettings == VoiceSettings(0.5, 0.75)
  {
  }

  /** The voice id a target URL addresses, if it is an endpoint URL at all. */
  function VoiceOfTarget(target: string): Option<string> {
    if |target| >= |EndpointPrefix| && target[..|EndpointPrefix|] == EndpointPrefix
    then Some(target[|EndpointPrefix|..])
    else None
  }

  /** The target is the fixed prefix followed by the selected voice: reading the voice back
      from the target gives the selected voice. */
  lemma TargetNamesVoice(text: string, voice: string, apiKey: string)
    ensures VoiceOfTarget(BuildRequest(text, voice, apiKey).target) == Some(voice)
  {
    var t := BuildRequest(text, voice, apiKey).target;
    assert t == EndpointPrefix + voice;
    assert t[..|EndpointPrefix|] == EndpointPrefix;
    assert t[|EndpointPrefix|..] == voice;
  }

  /** Different voices are sent to different URLs. */
  lemma TargetInjective(text: string, v1: string, v2: string, apiKey: string)
    requires BuildRequest(text, v1, apiKey).target == BuildRequest(text, v2, apiKey).target
    ensures v1 == v2
  {
    TargetNamesVoice(text, v1, apiKey);
    TargetNamesVoice(text, v2, apiKey);
  }

  // ---------------------------------------------------------------------------
  // Buttons

  /** The Generate button is enabled iff some character of the text is not whitespace and
      no generation is running: `!(!text.trim() || isGenerating)`. */
  function GenerateButtonEnabled(text: string, isGenerating: bool, ws: char -> bool): (enabled: bool)
    ensures enabled <==> (exists i :: 0 <= i < |text| && !ws(text[i])) && !isGenerating
  {
    !(IsBlank(text, ws) || isGenerating)
  }

  /** The Continue button is enabled iff the key has a non-whitespace character. */
  function ContinueButtonEnabled(apiKey: string, ws: char -> bool): (enabled: bool)
    ensures enabled <==> exists i :: 0 <= i < |apiKey| && !ws(apiKey[i])
  {
    !IsBlank(apiKey, ws)
  }

  /** The Generate button is enabled exactly when the text panel counts at least one word and
      no generation is running. */
  lemma GenerateEnabledIffWords(text: string, isGenerating: bool, ws: char -> bool)
    ensures GenerateButtonEnabled(text, isGenerating, ws) <==> WordCount(text, ws) > 0 && !isGenerating
  {
    WordCountZeroIffBlank(text, ws);
  }

  // ---------------------------------------------------------------------------
  // The page

  /** How the start of `generateAudiobook` ended: a toast for missing text, a toast for a
      missing key, or the request it sent. */
  datatype Started = NoText | NoKey | Sent(request: Request)

  /**
   * The page's state cells. `showApiKeyInput` starts true and only `Continue` writes it,
   * always with false, so once false it stays false.
   */
  class Page {
    const ws: char -> bool
    var text: string
    var selectedVoice: string
    var audioUrl: Option<Url>
    var isGenerating: bool
    var apiKey: string
    var showApiKeyInput: bool

    constructor (ws: char -> bool)
      ensures this.ws == ws
      ensures text == "" && selectedVoice == DefaultVoice && selectedVoice in VoiceCatalog
      ensures audioUrl == None && !isGenerating && apiKey == "" && showApiKeyInput
    {
      this.ws := ws;
      text := "";
      selectedVoice := DefaultVoice;
      audioUrl := None;
      isGenerating := false;
      apiKey := "";
      showApiKeyInput := true;
    }

    /** The player's view for the current state. The whole generator section, player
        included, is rendered only once the key card is gone. */
    function PlayerView(): (v: View)
      reads this
      ensures showApiKeyInput ==> v == Nothing
      ensures !showApiKeyInput && isGenerating ==> v == Loading
      ensures v == Player <==> !showApiKeyInput && !isGenerating && audioUrl.Some?
    {
      if showApiKeyInput then Nothing else ViewFor(isGenerating, audioUrl)
    }

    /** The Generate button can be pressed: it exists only once the key card is gone, and it
        is enabled exactly when the text panel counts a word and no generation is running. */
    function GenerateClickable(): (b: bool)
      reads this
      ensures b <==> !showApiKeyInput && WordCount(text, ws) > 0 && !isGenerating
    {
      GenerateEnabledIffWords(text, isGenerating, ws);
      !showApiKeyInput && GenerateButtonEnabled(text, isGenerating, ws)
    }

    /** `onTextChange`: the text panel replaces the text. */
    method SetText(newText: string)
      modifies this`text
      ensures text == newText
    {
      text := newText;
    }

    /** `onVoiceSelect`: the selector only ever passes one of its catalog ids. */
    method SelectVoice(voice: string)
      requires voice in VoiceCatalog
      modifies this`selectedVoice
      ensures selectedVoice == voice && selectedVoice in VoiceCatalog
    {
      selectedVoice := voice;
    }

    /** Typing in the key field. */
    method SetApiKey(key: string)
      modifies this`apiKey
      ensures apiKey == key
    {
      apiKey := key;
    }

    /** The Continue button hides the key card for good. */
    method Continue()
      modifies this`showApiKeyInput
      ensures !showApiKeyInput
    {
      showApiKeyInput := false;
    }

    /** `generateAudiobook` up to its `await`. The text is checked first: blank text stops it
        whatever the key; then a blank key stops it. Neither stop changes any state. Otherwise
        the flag goes up and the request is sent. There is no check of `isGenerating`. The
        button that triggers it exists only once the key card is gone. */
    method BeginGenerate() returns (started: Started)
      requires !showApiKeyInput
      modifies this`isGenerating
      ensures IsBlank(old(text), ws) ==> started == NoText && isGenerating == old(isGenerating)
      ensures !IsBlank(old(text), ws) && IsBlank(old(apiKey), ws) ==>
        started == NoKey && isGenerating == old(isGenerating)
      ensures !IsBlank(old(text), ws) && !IsBlank(old(apiKey), ws) ==>
        started == Sent(BuildRequest(old(text), old(selectedVoice), old(apiKey))) && isGenerating
      ensures started.Sent? ==> PlayerView() == Loading
    {
      if IsBlank(text, ws) {
        return NoText;
      }
      if IsBlank(apiKey, ws) {
        return NoKey;
      }
      isGenerating := true;
      started := Sent(BuildRequest(text, selectedVoice, apiKey));
      assert PlayerView() == Loading;
    }

    /** `generateAudiobook` after its `await`: success installs the new URL, any failure keeps
        the old one, and the `finally` lowers the flag in both cases. A request is only in
        flight after the key card is gone, and it never comes back. */
    method FinishGenerate(outcome: Outcome)
      requires !showApiKeyInput
      modifies this`isGenerating, this`audioUrl
      ensures !isGenerating
      ensures audioUrl == if outcome.Ok? then Some(outcome.url) else old(audioUrl)
      ensures outcome.Ok? ==> PlayerView() == Player
      ensures outcome.Fail? ==> PlayerView() == ViewFor(false, old(audioUrl))
    {
      if outcome.Ok? {
        audioUrl := Some(outcome.url);
      }
      isGenerating := false;
    }

    /** The whole of `generateAudiobook` when the request resolves with `outcome` before
        anything else happens on the page. */
    method GenerateAudiobook(outcome: Outcome) returns (started: Started)
      requires !showApiKeyInput
      modifies this`isGenerating, this`audioUrl
      ensures IsBlank(old(text), ws) ==> started == NoText
      ensures !started.Sent? ==> isGenerating == old(isGenerating) && audioUrl == old(audioUrl)
      ensures !IsBlank(old(text), ws) && IsBlank(old(apiKey), ws) ==> started == NoKey
      ensures !IsBlank(old(text), ws) && !IsBlank(old(apiKey), ws) ==>
        started == Sent(BuildRequest(old(text), old(selectedVoice), old(apiKey))) && !isGenerating &&
        audioUrl == (if outcome.Ok? then Some(outcome.url) else old(audioUrl))
    {
      ghost var t, k, v := text, apiKey, selectedVoice;
      started := BeginGenerate();
      assert text == t && apiKey == k && selectedVoice == v;
      if started.Sent? {
        FinishGenerate(outcome);
      }
    }
  }
}
