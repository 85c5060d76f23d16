/** The server responses of the iFlytek dictation service and how their words become
    transcript text: a response carries a code, an optional message and optional data whose
    result is a list of word groups (`ws`), each a list of candidates (`cw`) holding a word
    (`w`). */
module Transcript {
  import opened Wrappers

  datatype Candidate = Candidate(w: string)
  datatype WordGroup = WordGroup(cw: seq<Candidate>)
  datatype RecognitionPayload = RecognitionPayload(ws: seq<WordGroup>)
  datatype ResponseData = ResponseData(status: int, result: Option<RecognitionPayload>)
  datatype ServerMessage = ServerMessage(code: int, message: Option<string>, data: Option<ResponseData>)

  /** What the caller's `onResult` receives. */
  datatype VoiceRecognitionResult = VoiceRecognitionResult(text: string, confidence: real)

  /** `data.status` of the last response of an utterance. */
  const FinalStatus: int := 2
  /** The service returns no score; every delivered result carries this constant. */
  const FixedConfidence: real := 1.0
  const DefaultErrorText: string := "识别失败"

  /** `w.cw.map(c => c.w).join('')`: the candidates' words, in order, with nothing between. */
  function GroupText(cw: seq<Candidate>): (r: string)
    ensures r == Concat(Candidates(cw))
  {
    if |cw| == 0 then ""
    else
      assert ([cw[0].w] + Candidates(cw[1..]))[1..] == Candidates(cw[1..]);
      cw[0].w + GroupText(cw[1..])
  }

  /** `ws.map(w => ...).join('')`: the text a payload adds is the concatenation of all its
      words, group by group and candidate by candidate, with nothing inserted between them. */
  function PayloadText(ws: seq<WordGroup>): (r: string)
    ensures r == Concat(Words(ws))
  {
    if |ws| == 0 then ""
    else
      ConcatAppend(Candidates(ws[0].cw), Words(ws[1..]));
      GroupText(ws[0].cw) + PayloadText(ws[1..])
  }

  /** Every word of the payload, flattened in order: the reference reading of a payload. */
  function Words(ws: seq<WordGroup>): seq<string> {
    if |ws| == 0 then [] else Candidates(ws[0].cw) + Words(ws[1..])
  }

  function Candidates(cw: seq<Candidate>): seq<string> {
    if |cw| == 0 then [] else [cw[0].w] + Candidates(cw[1..])
  }

  function Concat(words: seq<string>): string {
    if |words| == 0 then "" else words[0] + Concat(words[1..])
  }

  lemma {:induction false} ConcatAppend(a: seq<string>, b: seq<string>)
    ensures Concat(a + b) == Concat(a) + Concat(b)
  {
    if |a| > 0 {
      assert (a + b)[1..] == a[1..] + b;
      ConcatAppend(a[1..], b);
    } else {
      assert a + b == b;
    }
  }

  /** The text does not depend on where the service cuts its word groups into responses:
      two adjacent payloads add what their concatenation adds. */
  lemma {:induction false} PayloadTextAppend(a: seq<WordGroup>, b: seq<WordGroup>)
    ensures PayloadText(a + b) == PayloadText(a) + PayloadText(b)
  {
    if |a| > 0 {
      assert (a + b)[1..] == a[1..] + b;
      PayloadTextAppend(a[1..], b);
    } else {
      assert a + b == b;
    }
  }

  /** Appending two responses one after the other leaves the transcript as appending them
      as one response would. */
  lemma SplitResponse(text: string, a: seq<WordGroup>, b: seq<WordGroup>)
    ensures text + PayloadText(a) + PayloadText(b) == text + PayloadText(a + b)
  {
    PayloadTextAppend(a, b);
  }

  /** `data.message || '识别失败'`: the message shown for a failed response. */
  function ErrorText(message: Option<string>): (r: string)
    ensures r != ""
    ensures message.Some? && message.value != "" ==> r == message.value
    ensures message.None? || message.value == "" ==> r == DefaultErrorText
  {
    if message.Some? && message.value != "" then message.value else DefaultErrorText
  }
}
