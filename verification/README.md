# AI Travel Planner — a verified model of its service core

This project models three parts of the AI Travel Planner web application in Dafny and proves
properties about them:

- **The speech-recognition session** (`VoiceService`): it signs the iFlytek IAT WebSocket URL,
  guards and starts a recording session, and appends the word groups of each server response
  to the transcript. It delivers the transcript once on the final response, converts captured
  samples to clamped 16-bit PCM, and tears the session down with a 500 ms delayed delivery.
  The browser around the object is made explicit: the WebSockets it created, its pending
  timers, and a log of every effect (frames sent, callbacks invoked, sockets closed, capture
  released). Socket, audio and timer events are methods the environment calls one at a time.
- **The AI service** (`AIService`): the provider table of `configureProvider`, the missing-key
  guard of both request flows, the extraction of the JSON object from a model reply, and the
  construction of a draft travel plan from it.
- **The configuration context** (`ConfigContext`): the spread merge of `updateConfig`, the
  `isConfigured` flag, and the rules by which `applyConfig` configures the AI, voice and map
  services.

Files, in dependency order:

| file | module | contents |
|---|---|---|
| `wrappers.dfy` | `Wrappers` | `Option`, `Result`, `Outcome` |
| `strings.dfy` | `Strings` | `Join`/`Split` and their round trips, first/last index of a character |
| `pcm.dfy` | `Pcm` | the 16-bit clamp, the `Int16Array` store, the clamp loop over an array, the little-endian byte layout |
| `signer.dfy` | `Signer` | `generateAuthUrl` with HMAC-SHA256, base64, `btoa` and `encodeURIComponent` as function values |
| `transcript.dfy` | `Transcript` | server response records and the word concatenation |
| `voice_service.dfy` | `Voice` | class `VoiceService` and two scenarios of the delayed delivery |
| `plan_parser.dfy` | `Planner` | plan records, JSON extraction, `parsePlanResponse` |
| `ai_service.dfy` | `Ai` | class `AIService` |
| `config_context.dfy` | `Config` | `ApiConfig`, the merge, the gates, classes `MapService` and `ConfigProvider` |

Callbacks passed by a caller are identified by numbers (`CallbackId`). Invoking one appends a
`ResultTo` or `ErrorTo` entry to the effect log. Each socket records the callbacks its
handlers captured and the session that opened it.

The model follows the code of the recognition session:

- the URL is refused only when no configuration is set; empty credential fields are signed;
- audio frames are dropped, not queued, while the socket is not open;
- the delayed step delivers nothing when the transcript is empty;
- a non-zero response code reports to `onError` but does not end the session;
- a refused microphone surfaces as the failure of `startRecording`, not through `onError`;
- every word group of every response is appended, final responses included.

## Model

| member | source | states |
|---|---|---|
| Pcm.Clamp16 | src/services/voiceService.ts:150 | the converted sample lies in [-32768, 32767], equals the input when it already does, and saturates at the nearer bound otherwise |
| Pcm.ToInt16 | src/services/voiceService.ts:147-150 | storing into the `Int16Array` yields a value in range that is congruent to the stored value modulo 65536 |
| Pcm.ClampPreventsWrap | src/services/voiceService.ts:147-150 | after the clamp, the store into the `Int16Array` does not change the value (no wrap-around) |
| Pcm.ClampAll | src/services/voiceService.ts:149-151 | the converted frame has the input's length and holds, position by position, the clamped sample |
| Pcm.ClampFrame | src/services/voiceService.ts:146-151 | the loop fills a new array of the input's length with exactly `ClampAll` of the input, every entry in range |
| Pcm.SampleBytes | src/services/voiceService.ts:156 | a sample occupies exactly two bytes of the buffer |
| Pcm.DecodeSample | src/services/voiceService.ts:155-156 | two little-endian bytes decode to a 16-bit sample |
| Pcm.SampleRoundTrip | src/services/voiceService.ts:155-156 | a sample's two buffer bytes decode back to the sample |
| Pcm.EncodeLe | src/services/voiceService.ts:156 | the byte view of a frame has two bytes per sample |
| Pcm.DecodeLe | src/services/voiceService.ts:156 | an even-length byte view decodes to half as many in-range samples |
| Pcm.DecodeEncode | src/services/voiceService.ts:155-156 | decoding the byte view of a frame gives back the frame |
| Pcm.ByteString | src/services/voiceService.ts:156 | `String.fromCharCode(...bytes)`: one character per byte, whose code is the byte |
| Pcm.CharCodes | src/services/voiceService.ts:156 | the character codes of a string of codes below 256: one byte per character |
| Pcm.CharCodesByteString | src/services/voiceService.ts:156 | the byte string handed to `btoa` loses nothing: its character codes are the buffer's bytes |
| Signer.SignatureOrigin | src/services/voiceService.ts:40 | the string that is signed; its three-line layout is stated by Signer.SignatureOriginLines |
| Signer.Signature | src/services/voiceService.ts:41-42 | the base64 of the HMAC-SHA256 of that string under the API secret, both library calls |
| Signer.AuthorizationOrigin | src/services/voiceService.ts:44 | the authorization string before encoding; its four fields are stated by Signer.AuthorizationFields |
| Signer.Authorization | src/services/voiceService.ts:44-45 | `btoa` of the authorization string built from the API key and the signature |
| Signer.Query | src/services/voiceService.ts:47 | the query string; its three parameters are stated by Signer.QueryParams |
| Signer.SignedUrl | src/services/voiceService.ts:47 | the endpoint followed by the query; its layout is stated by Signer.SignedUrlQuery |
| Signer.GenerateAuthUrl | src/services/voiceService.ts:28-48 | fails exactly when no configuration is set, and then with the message "科大讯飞配置未设置" |
| Signer.SignatureOriginLines | src/services/voiceService.ts:40 | the signed string is exactly the three lines `host: iat-api.xfyun.cn`, `date: <date>` and `GET /v2/iat HTTP/1.1` |
| Signer.AuthorizationFields | src/services/voiceService.ts:44 | the authorization string holds, in order, the API key, `hmac-sha256`, `host date request-line` and the signature |
| Signer.QueryParams | src/services/voiceService.ts:47 | the query string is exactly the parameters `authorization`, `date` and `host`, in that order |
| Signer.SignedUrlQuery | src/services/voiceService.ts:47 | the URL is the base endpoint, one `?`, and that query string |
| Signer.AuthUrlQuery | src/services/voiceService.ts:33-47 | with a configuration, the URL is the endpoint with the base64 authorization, the encoded date and the host, a deterministic function of configuration, date and encoders |
| Transcript.ConcatAppend | src/services/voiceService.ts:111-113 | concatenating two word lists is concatenating their texts |
| Transcript.GroupText | src/services/voiceService.ts:112 | a word group's text is the in-order concatenation of its candidates' words |
| Transcript.PayloadText | src/services/voiceService.ts:111-113 | a response's text is the in-order concatenation of all words of all groups |
| Transcript.PayloadTextAppend | src/services/voiceService.ts:111-113 | the text of adjacent group lists is the concatenation of their texts |
| Transcript.SplitResponse | src/services/voiceService.ts:115 | splitting one response into two adjacent ones leaves the resulting transcript unchanged |
| Transcript.ErrorText | src/services/voiceService.ts:106 | the error message is the server's message when non-empty, else "识别失败"; it is never empty |
| Voice.AfterClose | src/services/voiceService.ts:214 | `ws.close()` on a socket: a connecting or open socket starts closing, a closing or closed one is unchanged, and nothing but the ready state changes |
| Voice.ErrorEffects | src/services/voiceService.ts:133 | `onError?.(...)`: no report without an error callback, exactly one "语音识别连接失败" report to it otherwise |
| Voice.VoiceService.constructor | src/services/voiceService.ts:11-21 | a new service is idle with the given configuration, empty transcript and no callback |
| Voice.VoiceService.SetConfig | src/services/voiceService.ts:23-25 | sets the configuration and nothing else |
| Voice.VoiceService.StartRecording | src/services/voiceService.ts:51-58 | without configuration, or while recording, fails with the source's message and changes nothing; otherwise resets the transcript, records the callback, and either fails with `isRecording` false (microphone refused) or opens a socket to the signed URL and records it |
| Voice.VoiceService.BeginSession | src/services/voiceService.ts:60-186 | resets the transcript and callback; a refused microphone fails with its reason and leaves `isRecording` false; a granted one opens a connecting socket capturing both callbacks and marks the service recording |
| Voice.VoiceService.OpenSocket | src/services/voiceService.ts:71 | appends one connecting socket for the URL, carrying the session's callbacks |
| Voice.VoiceService.OnOpen | src/services/voiceService.ts:76-98 | the socket becomes open and exactly one start frame with the app id, business parameters, format and encoding is sent |
| Voice.VoiceService.OnMessage | src/services/voiceService.ts:100-129 | a message on a socket that is not open changes nothing; a non-zero code reports to `onError` and leaves the transcript alone; a result appends its words, so the old transcript is a prefix of the new; a final result hands the whole transcript with confidence 1 to the socket's `onResult` once and clears the callback; the delivery counters of the at-most-once invariant advance exactly by such a delivery on the current session's socket |
| Voice.VoiceService.OnAudioProcess | src/services/voiceService.ts:143-169 | while recording and with the socket open, sends exactly one audio frame holding `btoa` of the clamped samples' little-endian bytes; otherwise sends nothing; no other state changes |
| Voice.VoiceService.StopRecording | src/services/voiceService.ts:190-226 | a no-op when not recording (so stopping twice is stopping once); otherwise ends not recording with no recognition, sends the end frame and schedules the delayed step only when the socket is open, and releases capture |
| Voice.VoiceService.Close | src/services/voiceService.ts:214 | a connecting or open socket starts closing; the close is logged |
| Voice.VoiceService.TimerFired | src/services/voiceService.ts:204-215 | the delayed step of its own session delivers the non-empty transcript to the pending callback and clears it, at most once per session; a step of an older session delivers nothing; the socket is closed; the manual-delivery counter advances by exactly the delivery made |
| Voice.VoiceService.TimerFiredAsWritten | src/services/voiceService.ts:204-215 | the delayed step as written delivers the current transcript to the current callback whatever session scheduled it, then closes its socket |
| Voice.VoiceService.OnError | src/services/voiceService.ts:131-135 | the socket is closed; the log gains the socket's `onError` report (if any) followed by exactly the effects of `stopRecording`: nothing when not recording, otherwise the end frame and a timer when the current socket is open, and the capture release; configuration and session number are unchanged and the old log is a prefix of the new |
| Voice.VoiceService.OnClose | src/services/voiceService.ts:137-140 | the socket is closed and the log gains exactly the effects of `stopRecording` (as for `OnError`, without the report); configuration and session number are unchanged and the old log is a prefix of the new |
| Voice.VoiceService.GetIsRecording | src/services/voiceService.ts:229-231 | recording exactly when a recognition is held |
| Voice.WordResponse | src/services/voiceService.ts:110-119 | a successful server response with the given status whose words read exactly the given text |
| Voice.PendingTimerFromEarlierSession | src/services/voiceService.ts:51-129 | after session A stops with its socket open and session B starts, opens and receives "北京", A's timer is pending, B's callback is pending and has received nothing |
| Voice.StaleTimerScenario | src/services/voiceService.ts:204-213 | with the delayed step as written, one session's callback receives two results |
| Voice.StaleTimerScenarioCorrected | src/services/voiceService.ts:204-213 | with the corrected delayed step, the same events deliver one result |
| Planner.OrElse | src/services/aiService.ts:206 | a non-empty fallback makes the result non-empty, so every `message \|\| '...'` error text is non-empty |
| Planner.NoSpanBeforeFirstOpen | src/services/aiService.ts:181 | when the last `}` precedes the first `{`, no `{…}` span exists |
| Planner.ExtractJson | src/services/aiService.ts:181-182 | without a `{` followed by a `}`, the whole content; otherwise the span from the first `{` to the last `}` |
| Planner.FoldCosts | src/services/aiService.ts:199 | the `reduce` over a day's activities from an initial sum; its value is stated by Planner.FoldIsSum |
| Planner.FoldIsSum | src/services/aiService.ts:199 | the `reduce` over a day's activities is the sum of their costs |
| Planner.SumCostsAppend | src/services/aiService.ts:199 | a day's total is additive over a split of its activities |
| Planner.ConvertActivity | src/services/aiService.ts:188-198 | the stored activity keeps every field of the reply, images defaulting to empty, under the given id |
| Planner.ConvertActivities | src/services/aiService.ts:188-198 | one activity per reply activity, in order, keeping time, type, title, description, location, cost and duration, images defaulting to empty, each with its generated id |
| Planner.ConvertDay | src/services/aiService.ts:185-200 | a day keeps its number, date and activities, and its total cost is the sum of its activities' costs |
| Planner.ConvertDays | src/services/aiService.ts:185-200 | the itinerary has one day per reply day, in order, each kept and each totalled |
| Planner.ParsePlanResponse | src/services/aiService.ts:178-225 | fails with "解析旅行计划失败" exactly when the extracted JSON does not parse; otherwise the plan copies destination, dates, budget, travelers and preferences, is a draft with no expenses and no user, takes the reply's title or falls back to destination + "之旅", and keeps the itinerary with per-day totals |
| Ai.ProviderUrl | src/services/aiService.ts:31-52 | never empty; for `other` the custom URL when non-empty, else the OpenAI URL; the OpenAI URL for `openai` |
| Ai.ProviderUrlFixed | src/services/aiService.ts:31-47 | only `other` depends on the custom URL |
| Ai.DefaultModel | src/services/aiService.ts:31-51 | never empty; `other` shares OpenAI's default model |
| Ai.ProviderModel | src/services/aiService.ts:34-50 | never empty; every provider takes the custom model when non-empty, else its default |
| Ai.AIService.constructor | src/services/aiService.ts:5-8 | starts with no key, the OpenAI URL and model, provider `openai` |
| Ai.AIService.SetApiKey | src/services/aiService.ts:10-12 | sets the key and nothing else |
| Ai.AIService.SetBaseUrl | src/services/aiService.ts:14-16 | sets the base URL and nothing else |
| Ai.AIService.SetModel | src/services/aiService.ts:18-20 | sets the model and nothing else |
| Ai.AIService.SetProvider | src/services/aiService.ts:22-24 | sets the provider and nothing else |
| Ai.AIService.ConfigureProvider | src/services/aiService.ts:27-53 | always sets provider and key to its arguments, and URL and model from the provider table, whatever the previous state; every request made afterwards goes to the table's URL + `/chat/completions` with `Bearer <key>` and the table's model |
| Ai.AIService.GenerateTravelPlan | src/services/aiService.ts:56-106 | with an empty key, fails with "请先在设置页面配置 AI API Key" and sends nothing; otherwise sends one request; succeeds exactly when the reply arrives and parses, with the parsed plan; every failure carries a non-empty message, the parse error when the reply arrived |
| Ai.AIService.GenerateFromVoiceInput | src/services/aiService.ts:228-276 | with an empty key, fails with the same message and sends nothing; otherwise sends the extraction request; a transport error or an unparsable trip request fails with its message or the fallback after that one request; a parsed trip request is followed by exactly one planning request for it, and the outcome is that reply's parse; every failure carries a non-empty message |
| Config.Merge | src/contexts/ConfigContext.tsx:62 | every supplied key takes the supplied value; every other key keeps the old value |
| Config.MergeNoChange | src/contexts/ConfigContext.tsx:62 | an empty update leaves the configuration unchanged |
| Config.MergeIdempotent | src/contexts/ConfigContext.tsx:62 | applying an update twice equals applying it once |
| Config.MergeThen | src/contexts/ConfigContext.tsx:61-66 | two successive updates equal one update in which the later values win |
| Config.IsConfigured | src/contexts/ConfigContext.tsx:68-75 | true exactly when the six required keys are non-empty, and exactly when all three services are configured by `applyConfig` |
| Config.VoiceCredentials | src/contexts/ConfigContext.tsx:48-52 | the voice service receives exactly the app id, API key and API secret, all non-empty |
| Config.MapService.constructor | src/services/mapService.ts:15 | a new map service has no key |
| Config.MapService.SetApiKey | src/services/mapService.ts:17-19 | sets the key and nothing else |
| Config.ConfigProvider.constructor | src/contexts/ConfigContext.tsx:18 | the context starts from the empty configuration |
| Config.ConfigProvider.ApplyConfig | src/contexts/ConfigContext.tsx:35-59 | each service is configured from the record exactly when its required keys are present, and left unchanged otherwise |
| Config.ConfigProvider.Load | src/contexts/ConfigContext.tsx:21-32 | a stored entry that parses becomes the state and is applied: each service whose gate is open is configured from it and every other service is left unchanged; an absent, empty or unparsable entry changes nothing |
| Config.ConfigProvider.UpdateConfig | src/contexts/ConfigContext.tsx:61-66 | the merged record is the new state, is exactly what is written to storage, and is what the services are configured from |
| Config.ConfigProvider.Configured | src/contexts/ConfigContext.tsx:68-75 | the exposed flag holds exactly when all three services' gates are open for the current state |

## Left out

- WebSocket transport, `getUserMedia`, `AudioContext`/`ScriptProcessor` and `setTimeout` are browser I/O; they appear only as events (open, message, error, close, audio block, timer fired) and as the `Permission` outcome passed to `StartRecording`.
- A WebSocket or `AudioContext` constructor that throws during `startRecording` is not modelled; only the microphone refusal is an error path of the start.
- HMAC-SHA256, base64, `btoa` and `encodeURIComponent` are library calls, supplied as function values; `new Date().toUTCString()` is the `date` parameter.
- The float-to-integer conversion `inputData[i] * 32768` is floating point; samples enter the model as integers, and the clamp and the 16-bit store are modelled on them.
- `JSON.parse` and `JSON.stringify` are function values; a reply whose JSON parses but lacks a field `parsePlanResponse` reads counts as unparsable.
- The prompt texts, including the day count of `buildPlanningPrompt`, are not modelled; a request records only its purpose, the planning request or the voice text.
- `crypto.randomUUID()`, `Date.now()`, `Math.random()` and `new Date().toISOString()` are values passed in (`Stamps`).
- Costs, budgets and durations are integers; coordinates and temperatures are reals.
- The reading of `response.data.choices[0].message.content` is folded into the HTTP reply: a reply of another shape is an `HttpError`.
- React state and `localStorage` are the fields `config` and `stored`; rendering and the `useConfig` hook are not modelled.
- Voice.VoiceService.StartRecording: the `await getUserMedia(...)` between the guards and `isRecording = true` is not modelled as an interleaving point; the permission outcome is a parameter, so a `stopRecording` or a second `startRecording` while the permission prompt is open is not represented.
- Voice.VoiceService.TimerFired: the at-most-once invariant counts final responses on the current session's socket and assumes the service sends one final response per session.
- A socket of an earlier session that closes or delivers a message after a new session started stops, or appends to, the new session, as the code does; only the delayed delivery is corrected.

## Findings

| source | as written | input that shows it | evidently intended | confidence | as-written member | corrected member |
|---|---|---|---|---|---|---|
| src/services/voiceService.ts:204-213 | the delayed step reads the service's current transcript and callback when it fires, not those of the session that scheduled it | stop session A with its socket open, start session B within 500 ms, B receives "北京", A's timer fires, then B's final response "天安门" arrives: B's callback receives "北京" and then "北京天安门" | the delayed step acts only for its own session, so a session's result is delivered at most once, as the comment at line 125 says | medium, not executed | Voice.VoiceService.TimerFiredAsWritten, exhibited by Voice.StaleTimerScenario | Voice.VoiceService.TimerFired, proved by the preserved SingleDelivery invariant and Voice.StaleTimerScenarioCorrected |
