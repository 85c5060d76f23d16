/** The speech-recognition session object `VoiceService`. Its own fields are those of the
    source (`config`, `recognition`, `isRecording`, `resultText`, `onResultCallback`). The
    browser around it is modelled by three more fields: the WebSockets it created (each
    holding the callbacks its handlers captured), the pending 500 ms timers, and the log of
    every effect on the outside world (frames sent, callbacks invoked, sockets closed, capture
    released). Socket, timer and audio events are methods the environment calls one at a
    time. */
module Voice {
  import opened Wrappers
  import opened Signer
  import opened Transcript
  import Pcm

  /** Identity of a closure passed in by the caller. */
  type CallbackId = nat
  /** Index of a socket in `sockets`. */
  type SocketId = nat

  datatype ReadyState = Connecting | Open | Closing | Closed

  /** A WebSocket opened by `startRecording`, with the callbacks its handlers captured and the
      session that opened it. */
  datatype Socket = Socket(url: string, readyState: ReadyState, onResult: CallbackId,
                           onError: Option<CallbackId>, session: nat)

  /** The live handles of a session (socket, stream, audio context, processor, source); the
      capture handles are released together, so the socket names them all. */
  datatype Recognition = Recognition(ws: SocketId)

  datatype BusinessParams = BusinessParams(language: string, domain: string, accent: string, vadEos: int)

  const AudioFormat: string := "audio/L16;rate=16000"
  const AudioEncoding: string := "raw"
  const Business: BusinessParams := BusinessParams("zh_cn", "iat", "mandarin", 3000)

  /** The three client frames: `data.status` 0 (first), 1 (audio) and 2 (last). */
  datatype Frame =
    | StartFrame(appId: string, business: BusinessParams, format: string, encoding: string)
    | AudioFrame(format: string, encoding: string, audio: string)
    | EndFrame

  datatype Effect =
    | Send(ws: SocketId, frame: Frame)
    | ResultTo(callback: CallbackId, result: VoiceRecognitionResult)
    | ErrorTo(callback: CallbackId, message: string)
    | CloseSocket(ws: SocketId)
    | ReleaseCapture(ws: SocketId)

  /** A pending `setTimeout(..., 500)` of `stopRecording`: the socket its closure captured and
      the session that scheduled it. */
  datatype Timer = Timer(ws: SocketId, session: nat)

  /** The outcome of `getUserMedia`. */
  datatype Permission = Granted | Denied(reason: string)

  const NotConfiguredError: string := "请先在设置页面配置科大讯飞 API"
  const AlreadyRecordingError: string := "正在录音中"
  const ConnectionError: string := "语音识别连接失败"

  /** A socket after `ws.close()`: a connecting or open socket starts closing; a closing or
      closed one is left as it is. Nothing but the ready state changes. */
  function AfterClose(s: Socket): (r: Socket)
    ensures r == s.(readyState := r.readyState)
    ensures s.readyState == Connecting || s.readyState == Open ==> r.readyState == Closing
    ensures s.readyState == Closing || s.readyState == Closed ==> r == s
  {
    if s.readyState == Connecting || s.readyState == Open then s.(readyState := Closing) else s
  }

  /** The report of a connection failure to the `onError` a socket captured, if any. */
  function ErrorEffects(onError: Option<CallbackId>): (r: seq<Effect>)
    ensures onError.None? <==> r == []
    ensures onError.Some? ==> r == [ErrorTo(onError.value, ConnectionError)]
  {
    if onError.Some? then [ErrorTo(onError.value, ConnectionError)] else []
  }

  /** How many results the log hands to callback `cb`. */
  function ResultsTo(effects: seq<Effect>, cb: CallbackId): nat {
    if |effects| == 0 then 0
    else ResultsTo(effects[..|effects| - 1], cb)
         + (if effects[|effects| - 1].ResultTo? && effects[|effects| - 1].callback == cb then 1 else 0)
  }

  lemma ResultsToAppend(effects: seq<Effect>, e: Effect, cb: CallbackId)
    ensures ResultsTo(effects + [e], cb) == ResultsTo(effects, cb) + (if e.ResultTo? && e.callback == cb then 1 else 0)
  {
    assert (effects + [e])[..|effects|] == effects;
  }

  class VoiceService {
    var config: Option<XunfeiConfig>
    var recognition: Option<Recognition>
    var isRecording: bool
    var resultText: string
    var onResultCallback: Option<CallbackId>

    var sockets: seq<Socket>
    var timers: seq<Timer>
    var effects: seq<Effect>
    /** Number of sessions started so far; the corrected timer compares against it. */
    var session: nat

    /** Results delivered in the current session by the delayed step of `stopRecording`,
        and by a final response on the current session's socket. */
    ghost var manualDeliveries: nat
    ghost var finalDeliveries: nat

    /** Well-formedness of the object and its browser state. */
    ghost predicate Valid()
      reads this
    {
      && (isRecording <==> recognition.Some?)
      && (recognition.Some? ==>
            recognition.value.ws < |sockets| && sockets[recognition.value.ws].session == session)
      && (forall t :: t in timers ==> t.ws < |sockets| && sockets[t.ws].session == t.session)
      && (forall i :: 0 <= i < |sockets| ==> sockets[i].session <= session)
      && (forall i, j :: 0 <= i < j < |sockets| ==> sockets[i].session < sockets[j].session)
      && (|sockets| > 0 ==> config.Some?)
    }

    /** The intent of clearing `onResultCallback`: within a session the delayed step delivers
        at most once, never together with a final response, and only while nothing has been
        delivered; after it the session's socket no longer receives messages. */
    ghost predicate SingleDelivery()
      reads this
    {
      && manualDeliveries <= 1
      && (onResultCallback.Some? ==> manualDeliveries == 0 && finalDeliveries == 0)
      && (manualDeliveries == 1 ==>
            finalDeliveries == 0
            && forall i :: 0 <= i < |sockets| && sockets[i].session == session ==>
                 sockets[i].readyState == Closing || sockets[i].readyState == Closed)
    }

    constructor (config: Option<XunfeiConfig>)
      ensures Valid() && SingleDelivery()
      ensures this.config == config && recognition.None? && !isRecording
      ensures resultText == "" && onResultCallback.None?
      ensures sockets == [] && timers == [] && effects == [] && session == 0
    {
      this.config := config;
      recognition := None;
      isRecording := false;
      resultText := "";
      onResultCallback := None;
      sockets := [];
      timers := [];
      effects := [];
      session := 0;
      manualDeliveries := 0;
      finalDeliveries := 0;
    }

    /** `setConfig`. */
    method SetConfig(c: XunfeiConfig)
      requires Valid()
      modifies this`config
      ensures Valid()
      ensures old(SingleDelivery()) ==> SingleDelivery()
      ensures config == Some(c)
    {
      config := Some(c);
    }

    /** `startRecording`: refuses without configuration or while recording, leaving every
        field as it was; otherwise resets the transcript and records the callback, then asks
        for the microphone. A refusal there surfaces the error with `isRecording` false;
        a grant opens a socket to the signed URL. */
    method StartRecording(onResult: CallbackId, onError: Option<CallbackId>, permission: Permission,
                          date: string, codecs: Codecs) returns (outcome: Outcome<string>)
      requires Valid()
      modifies this
      ensures Valid()
      ensures old(SingleDelivery()) ==> SingleDelivery()
      ensures old(config).None? ==> outcome == Fail(NotConfiguredError) && unchanged(this)
      ensures old(config).Some? && old(isRecording) ==> outcome == Fail(AlreadyRecordingError) && unchanged(this)
      ensures old(config).Some? && !old(isRecording) ==>
        && config == old(config)
        && resultText == "" && onResultCallback == Some(onResult)
        && session == old(session) + 1
        && timers == old(timers) && effects == old(effects)
        && (permission.Denied? ==>
              && outcome == Fail(permission.reason)
              && !isRecording && recognition.None? && sockets == old(sockets))
        && (permission.Granted? ==>
              && outcome == Pass
              && isRecording && recognition == Some(Recognition(|old(sockets)|))
              && sockets == old(sockets) + [Socket(GenerateAuthUrl(config, date, codecs).value,
                                                   Connecting, onResult, onError, session)])
      ensures !old(isRecording) && outcome.Fail? ==> !isRecording
    {
      if config.None? {
        return Fail(NotConfiguredError);
      }
      if isRecording {
        return Fail(AlreadyRecordingError);
      }
      var url := GenerateAuthUrl(config, date, codecs).value;
      outcome := BeginSession(onResult, onError, permission, url);
    }

    /** The part of `startRecording` after its two guards. */
    method BeginSession(onResult: CallbackId, onError: Option<CallbackId>, permission: Permission,
                        url: string) returns (outcome: Outcome<string>)
      requires Valid()
      requires config.Some? && !isRecording
      modifies this
      ensures Valid()
      ensures old(SingleDelivery()) ==> SingleDelivery()
      ensures config == old(config)
      ensures resultText == "" && onResultCallback == Some(onResult)
      ensures session == old(session) + 1
      ensures timers == old(timers) && effects == old(effects)
      ensures permission.Denied? ==>
        && outcome == Fail(permission.reason)
        && !isRecording && recognition.None? && sockets == old(sockets)
      ensures permission.Granted? ==>
        && outcome == Pass
        && isRecording && recognition == Some(Recognition(|old(sockets)|))
        && sockets == old(sockets) + [Socket(url, Connecting, onResult, onError, session)]
    {
      resultText := "";
      onResultCallback := Some(onResult);
      session := session + 1;
      manualDeliveries := 0;
      finalDeliveries := 0;
      if permission.Denied? {
        isRecording := false;
        return Fail(permission.reason);
      }
      OpenSocket(url, onResult, onError);
      isRecording := true;
      recognition := Some(Recognition(|sockets| - 1));
      outcome := Pass;
    }

    /** `new WebSocket(url)` with the handlers of the current session attached. */
    method OpenSocket(url: string, onResult: CallbackId, onError: Option<CallbackId>)
      requires Valid() && config.Some?
      requires forall i :: 0 <= i < |sockets| ==> sockets[i].session < session
      modifies this`sockets
      ensures Valid()
      ensures sockets == old(sockets) + [Socket(url, Connecting, onResult, onError, session)]
    {
      var s := Socket(url, Connecting, onResult, onError, session);
      sockets := sockets + [s];
      assert forall i :: 0 <= i < |sockets| - 1 ==> sockets[i] == old(sockets)[i];
    }

    /** `ws.onopen`: the socket is open and the first frame goes out, carrying the app id of
        the configuration current at that moment. */
    method OnOpen(ws: SocketId)
      requires Valid()
      requires ws < |sockets| && sockets[ws].readyState == Connecting
      modifies this
      ensures Valid()
      ensures old(SingleDelivery()) ==> SingleDelivery()
      ensures sockets == old(sockets)[ws := old(sockets)[ws].(readyState := Open)]
      ensures effects == old(effects) + [Send(ws, StartFrame(config.value.appId, Business, AudioFormat, AudioEncoding))]
      ensures config == old(config) && recognition == old(recognition) && isRecording == old(isRecording)
      ensures resultText == old(resultText) && onResultCallback == old(onResultCallback)
      ensures timers == old(timers) && session == old(session)
    {
      sockets := sockets[ws := sockets[ws].(readyState := Open)];
      effects := effects + [Send(ws, StartFrame(config.value.appId, Business, AudioFormat, AudioEncoding))];
    }

    /** `ws.onmessage` of socket `ws`. The browser drops messages unless the socket is open.
        A non-zero code reports the message to the socket's `onError`, if any, and changes
        nothing else; a response with a result appends its words to the transcript; a final
        response then hands the whole transcript to the socket's `onResult` and clears
        `onResultCallback`. */
    method OnMessage(ws: SocketId, m: ServerMessage)
      requires Valid()
      requires ws < |sockets|
      modifies this
      ensures Valid()
      ensures old(SingleDelivery()) ==> SingleDelivery()
      ensures old(resultText) <= resultText
      ensures config == old(config) && recognition == old(recognition) && isRecording == old(isRecording)
      ensures sockets == old(sockets) && timers == old(timers) && session == old(session)
      ensures old(sockets)[ws].readyState != Open ==> unchanged(this)
      ensures manualDeliveries == old(manualDeliveries)
      ensures finalDeliveries == old(finalDeliveries)
        + (if |effects| > |old(effects)| && effects[|effects| - 1].ResultTo? && sockets[ws].session == session then 1 else 0)
      ensures old(sockets)[ws].readyState == Open && m.code != 0 ==>
        && resultText == old(resultText) && onResultCallback == old(onResultCallback)
        && effects == old(effects) + (if sockets[ws].onError.Some?
                                     then [ErrorTo(sockets[ws].onError.value, ErrorText(m.message))] else [])
      ensures old(sockets)[ws].readyState == Open && m.code == 0 ==>
        if m.data.Some? && m.data.value.result.Some? then
          && resultText == old(resultText) + PayloadText(m.data.value.result.value.ws)
          && (m.data.value.status == FinalStatus ==>
                && effects == old(effects) + [ResultTo(sockets[ws].onResult, VoiceRecognitionResult(resultText, FixedConfidence))]
                && onResultCallback.None?)
          && (m.data.value.status != FinalStatus ==>
                effects == old(effects) && onResultCallback == old(onResultCallback))
        else
          resultText == old(resultText) && effects == old(effects) && onResultCallback == old(onResultCallback)
    {
      var s := sockets[ws];
      if s.readyState != Open {
        return;
      }
      if m.code != 0 {
        if s.onError.Some? {
          effects := effects + [ErrorTo(s.onError.value, ErrorText(m.message))];
        }
        return;
      }
      if m.data.Some? && m.data.value.result.Some? {
        resultText := resultText + PayloadText(m.data.value.result.value.ws);
        if m.data.value.status == FinalStatus {
          effects := effects + [ResultTo(s.onResult, VoiceRecognitionResult(resultText, FixedConfidence))];
          onResultCallback := None;
          if s.session == session {
            finalDeliveries := finalDeliveries + 1;
          }
        }
      }
    }

    /** `processor.onaudioprocess`: while recording, clamps the samples into a 16-bit buffer
        and sends them, base64-encoded, as an audio frame, but only if the socket is open. The processor is
        disconnected on stop, so its socket is the current session's. */
    method OnAudioProcess(input: seq<int>, codecs: Codecs)
      requires Valid()
      modifies this
      ensures Valid()
      ensures old(SingleDelivery()) ==> SingleDelivery()
      ensures config == old(config) && recognition == old(recognition) && isRecording == old(isRecording)
      ensures resultText == old(resultText) && onResultCallback == old(onResultCallback)
      ensures sockets == old(sockets) && timers == old(timers) && session == old(session)
      ensures effects == old(effects) +
        (if isRecording && sockets[recognition.value.ws].readyState == Open
         then [Send(recognition.value.ws, AudioFrame(AudioFormat, AudioEncoding, codecs.btoa(Pcm.ByteString(Pcm.EncodeLe(Pcm.ClampAll(input))))))]
         else [])
    {
      if !isRecording {
        return;
      }
      var output := Pcm.ClampFrame(input);
      var ws := recognition.value.ws;
      if sockets[ws].readyState == Open {
        effects := effects + [Send(ws, AudioFrame(AudioFormat, AudioEncoding, codecs.btoa(Pcm.ByteString(Pcm.EncodeLe(output[..])))))];
      }
    }

    /** `stopRecording`: does nothing unless a session is live. Otherwise, if the socket is
        open, sends the last frame and schedules the delayed step; then releases the capture
        resources and clears `isRecording` and `recognition`. */
    method StopRecording()
      requires Valid()
      modifies this
      ensures Valid()
      ensures old(SingleDelivery()) ==> SingleDelivery()
      ensures !isRecording && recognition.None?
      ensures old(effects) <= effects
      ensures !old(isRecording) || old(recognition).None? ==> unchanged(this)
      ensures config == old(config) && resultText == old(resultText) && onResultCallback == old(onResultCallback)
      ensures sockets == old(sockets) && session == old(session)
      ensures old(isRecording) && old(recognition).Some? ==>
        var ws := old(recognition).value.ws;
        if sockets[ws].readyState == Open then
          && effects == old(effects) + [Send(ws, EndFrame), ReleaseCapture(ws)]
          && timers == old(timers) + [Timer(ws, session)]
        else
          effects == old(effects) + [ReleaseCapture(ws)] && timers == old(timers)
    {
      if !isRecording || recognition.None? {
        return;
      }
      var ws := recognition.value.ws;
      if sockets[ws].readyState == Open {
        effects := effects + [Send(ws, EndFrame)];
        timers := timers + [Timer(ws, sockets[ws].session)];
      }
      effects := effects + [ReleaseCapture(ws)];
      isRecording := false;
      recognition := None;
    }

    /** `ws.close()`: a connecting or open socket starts closing. */
    method Close(ws: SocketId)
      requires Valid() && ws < |sockets|
      modifies this`sockets, this`effects
      ensures Valid()
      ensures sockets == old(sockets)[ws := AfterClose(old(sockets)[ws])]
      ensures effects == old(effects) + [CloseSocket(ws)]
    {
      if sockets[ws].readyState == Connecting || sockets[ws].readyState == Open {
        sockets := sockets[ws := sockets[ws].(readyState := Closing)];
      }
      effects := effects + [CloseSocket(ws)];
    }

    /** The delayed step of `stopRecording` as corrected: it hands the transcript to the
        pending callback only when the timer belongs to the current session, the transcript is
        non-empty and no result has been delivered; it then closes its own socket. */
    method TimerFired()
      requires Valid()
      requires timers != []
      modifies this
      ensures Valid()
      ensures old(SingleDelivery()) ==> SingleDelivery()
      ensures timers == old(timers)[1..]
      ensures config == old(config) && recognition == old(recognition) && isRecording == old(isRecording)
      ensures resultText == old(resultText) && session == old(session)
      ensures var t := old(timers)[0];
        var deliver := t.session == session && resultText != "" && old(onResultCallback).Some?;
        && onResultCallback == (if deliver then None else old(onResultCallback))
        && manualDeliveries == old(manualDeliveries) + (if deliver then 1 else 0)
        && finalDeliveries == old(finalDeliveries)
        && effects == old(effects)
             + (if deliver then [ResultTo(old(onResultCallback).value, VoiceRecognitionResult(resultText, FixedConfidence))] else [])
             + [CloseSocket(t.ws)]
        && t.ws < |old(sockets)| && sockets == old(sockets)[t.ws := AfterClose(old(sockets)[t.ws])]
    {
      var t := timers[0];
      timers := timers[1..];
      if t.session == session && resultText != "" && onResultCallback.Some? {
        effects := effects + [ResultTo(onResultCallback.value, VoiceRecognitionResult(resultText, FixedConfidence))];
        onResultCallback := None;
        manualDeliveries := manualDeliveries + 1;
      }
      Close(t.ws);
    }

    /** The delayed step of `stopRecording` as the source writes it: it reads the service's
        transcript and pending callback when it fires, whichever session they belong to. */
    method TimerFiredAsWritten()
      requires Valid()
      requires timers != []
      modifies this
      ensures Valid()
      ensures timers == old(timers)[1..]
      ensures config == old(config) && recognition == old(recognition) && isRecording == old(isRecording)
      ensures resultText == old(resultText) && session == old(session)
      ensures var t := old(timers)[0];
        var deliver := resultText != "" && old(onResultCallback).Some?;
        && onResultCallback == (if deliver then None else old(onResultCallback))
        && manualDeliveries == old(manualDeliveries) + (if deliver then 1 else 0)
        && finalDeliveries == old(finalDeliveries)
        && effects == old(effects)
             + (if deliver then [ResultTo(old(onResultCallback).value, VoiceRecognitionResult(resultText, FixedConfidence))] else [])
             + [CloseSocket(t.ws)]
        && t.ws < |old(sockets)| && sockets == old(sockets)[t.ws := AfterClose(old(sockets)[t.ws])]
    {
      var t := timers[0];
      timers := timers[1..];
      if resultText != "" && onResultCallback.Some? {
        effects := effects + [ResultTo(onResultCallback.value, VoiceRecognitionResult(resultText, FixedConfidence))];
        onResultCallback := None;
        manualDeliveries := manualDeliveries + 1;
      }
      Close(t.ws);
    }

    /** `ws.onerror`: the socket is closed, its `onError` (if any) hears of the failure, and
        the service stops recording. */
    method OnError(ws: SocketId)
      requires Valid()
      requires ws < |sockets|
      modifies this
      ensures Valid()
      ensures old(SingleDelivery()) ==> SingleDelivery()
      ensures !isRecording && recognition.None?
      ensures sockets == old(sockets)[ws := old(sockets)[ws].(readyState := Closed)]
      ensures resultText == old(resultText) && onResultCallback == old(onResultCallback)
      ensures config == old(config) && session == old(session)
      ensures old(effects) <= effects
      ensures !old(isRecording) ==> effects == old(effects) + ErrorEffects(old(sockets)[ws].onError) && timers == old(timers)
      ensures old(isRecording) ==>
        var cur := old(recognition).value.ws;
        if sockets[cur].readyState == Open then
          && effects == old(effects) + ErrorEffects(old(sockets)[ws].onError) + [Send(cur, EndFrame), ReleaseCapture(cur)]
          && timers == old(timers) + [Timer(cur, session)]
        else
          effects == old(effects) + ErrorEffects(old(sockets)[ws].onError) + [ReleaseCapture(cur)] && timers == old(timers)
    {
      sockets := sockets[ws := sockets[ws].(readyState := Closed)];
      effects := effects + ErrorEffects(sockets[ws].onError);
      StopRecording();
    }

    /** `ws.onclose`: the socket is closed and the service stops recording. */
    method OnClose(ws: SocketId)
      requires Valid()
      requires ws < |sockets|
      modifies this
      ensures Valid()
      ensures old(SingleDelivery()) ==> SingleDelivery()
      ensures !isRecording && recognition.None?
      ensures sockets == old(sockets)[ws := old(sockets)[ws].(readyState := Closed)]
      ensures resultText == old(resultText) && onResultCallback == old(onResultCallback)
      ensures config == old(config) && session == old(session)
      ensures old(effects) <= effects
      ensures !old(isRecording) ==> effects == old(effects) && timers == old(timers)
      ensures old(isRecording) ==>
        var cur := old(recognition).value.ws;
        if sockets[cur].readyState == Open then
          && effects == old(effects) + [Send(cur, EndFrame), ReleaseCapture(cur)]
          && timers == old(timers) + [Timer(cur, session)]
        else
          effects == old(effects) + [ReleaseCapture(cur)] && timers == old(timers)
    {
      sockets := sockets[ws := sockets[ws].(readyState := Closed)];
      StopRecording();
    }

    /** `getIsRecording`. */
    function GetIsRecording(): (r: bool)
      reads this
      requires Valid()
      ensures r <==> recognition.Some?
    {
      isRecording
    }
  }

  lemma {:induction false} NoResults(effects: seq<Effect>, cb: CallbackId)
    requires forall i :: 0 <= i < |effects| ==> !effects[i].ResultTo?
    ensures ResultsTo(effects, cb) == 0
  {
    if |effects| > 0 {
      NoResults(effects[..|effects| - 1], cb);
    }
  }

  /** A response of the service carrying one word. */
  function WordResponse(word: string, status: int): (m: ServerMessage)
    ensures m.code == 0 && m.data.Some? && m.data.value.status == status && m.data.value.result.Some?
    ensures PayloadText(m.data.value.result.value.ws) == word
  {
    var groups := [WordGroup([Candidate(word)])];
    assert PayloadText(groups[1..]) == "" && GroupText(groups[0].cw[1..]) == "";
    ServerMessage(0, None, Some(ResponseData(status, Some(RecognitionPayload(groups)))))
  }

  /** The common start of both scenarios: session A (callback 1) is stopped while its socket
      is open, so its 500 ms timer is pending; session B (callback 2) starts before the timer
      fires, its socket opens, and it receives the partial result "北京". */
  method PendingTimerFromEarlierSession() returns (v: VoiceService)
    ensures fresh(v) && v.Valid()
    ensures v.timers == [Timer(0, 1)] && v.session == 2
    ensures v.resultText == "北京" && v.onResultCallback == Some(2)
    ensures |v.sockets| == 2 && v.sockets[0].readyState == Open
    ensures v.sockets[1].readyState == Open && v.sockets[1].onResult == 2 && v.sockets[1].session == 2
    ensures ResultsTo(v.effects, 2) == 0
  {
    var codecs := Codecs((m, k) => [], b => "", s => s, s => s);
    v := new VoiceService(Some(XunfeiConfig("app", "key", "secret")));
    var started := v.StartRecording(1, None, Granted, "date", codecs);
    v.OnOpen(0);
    v.StopRecording();
    started := v.StartRecording(2, None, Granted, "date", codecs);
    v.OnOpen(1);
    v.OnMessage(1, WordResponse("北京", 1));
    NoResults(v.effects, 2);
  }

  /** With the delayed step as written, A's timer hands B's partial transcript to B's
      callback, and B's final response "天安门" then reaches the same callback a second time. */
  method StaleTimerScenario() returns (deliveries: nat)
    ensures deliveries == 2
  {
    var v := PendingTimerFromEarlierSession();
    ghost var before := v.effects;
    v.TimerFiredAsWritten();
    ghost var early := ResultTo(2, VoiceRecognitionResult("北京", FixedConfidence));
    assert v.effects == before + [early] + [CloseSocket(0)];
    ResultsToAppend(before, early, 2);
    ResultsToAppend(before + [early], CloseSocket(0), 2);
    ghost var afterTimer := v.effects;
    v.OnMessage(1, WordResponse("天安门", FinalStatus));
    assert v.resultText == "北京天安门";
    ghost var last := v.effects[|v.effects| - 1];
    assert v.effects == afterTimer + [last] && last.ResultTo? && last.callback == 2;
    ResultsToAppend(afterTimer, last, 2);
    deliveries := ResultsTo(v.effects, 2);
  }

  /** The same events with the corrected delayed step: A's timer only closes A's socket, and
      B's callback receives the final transcript once. */
  method StaleTimerScenarioCorrected() returns (deliveries: nat)
    ensures deliveries == 1
  {
    var v := PendingTimerFromEarlierSession();
    ghost var before := v.effects;
    v.TimerFired();
    assert v.effects == before + [CloseSocket(0)];
    ResultsToAppend(before, CloseSocket(0), 2);
    ghost var afterTimer := v.effects;
    v.OnMessage(1, WordResponse("天安门", FinalStatus));
    ghost var last := v.effects[|v.effects| - 1];
    assert v.effects == afterTimer + [last] && last.ResultTo? && last.callback == 2;
    ResultsToAppend(afterTimer, last, 2);
    deliveries := ResultsTo(v.effects, 2);
  }
}
