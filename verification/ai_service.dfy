/** `AIService`: the provider table behind `configureProvider`, the four fields it sets and the
    two request flows with their missing-key guard. The HTTP call is a function value from the
    request to the reply; `JSON.parse` is a function value as in `Planner`. */
module Ai {
  import opened Wrappers
  import opened Planner

  const OpenAIUrl: string := "https://api.openai.com/v1"
  const DeepSeekUrl: string := "https://api.deepseek.com/v1"
  const QwenUrl: string := "https://dashscope.aliyuncs.com/compatible-mode/v1"
  const KimiUrl: string := "https://api.moonshot.cn/v1"

  const OpenAIModel: string := "gpt-3.5-turbo"
  const DeepSeekModel: string := "deepseek-chat"
  const QwenModel: string := "qwen-plus"
  const KimiModel: string := "moonshot-v1-8k"

  const CompletionsPath: string := "/chat/completions"
  const MissingKeyError: string := "请先在设置页面配置 AI API Key"
  const PlanFallbackError: string := "生成旅行计划失败"
  const VoiceFallbackError: string := "处理语音输入失败"

  const PlanTemperature: real := 0.7
  const ExtractTemperature: real := 0.3
  const PlanMaxTokens: int := 3000

  /** The base URL `configureProvider` selects: fixed per provider, and for `other` the
      custom URL unless it is absent or empty. */
  function ProviderUrl(p: Provider, customUrl: Option<string>): (r: string)
    ensures r != ""
    ensures p == Other && Truthy(customUrl) ==> r == customUrl.value
    ensures p == Other && !Truthy(customUrl) ==> r == OpenAIUrl
    ensures p == OpenAI ==> r == OpenAIUrl
  {
    match p
    case OpenAI => OpenAIUrl
    case DeepSeek => DeepSeekUrl
    case Qwen => QwenUrl
    case Kimi => KimiUrl
    case Other => OrElse(customUrl, OpenAIUrl)
  }

  /** Only `other` looks at the custom URL. */
  lemma ProviderUrlFixed(p: Provider, u: Option<string>, v: Option<string>)
    requires p != Other
    ensures ProviderUrl(p, u) == ProviderUrl(p, v)
  {
  }

  /** The model a provider uses when no custom model is given; `other` falls back to OpenAI's. */
  function DefaultModel(p: Provider): (r: string)
    ensures r != ""
    ensures p == Other || p == OpenAI ==> r == OpenAIModel
  {
    match p
    case OpenAI => OpenAIModel
    case DeepSeek => DeepSeekModel
    case Qwen => QwenModel
    case Kimi => KimiModel
    case Other => OpenAIModel
  }

  /** `customModel || default`: every provider honours a non-empty custom model. */
  function ProviderModel(p: Provider, customModel: Option<string>): (r: string)
    ensures r != ""
    ensures Truthy(customModel) ==> r == customModel.value
    ensures !Truthy(customModel) ==> r == DefaultModel(p)
  {
    OrElse(customModel, DefaultModel(p))
  }

  /** What a chat completion is asked to do: plan a trip, or read a trip request out of a
      voice transcript. The prompt text itself is not modelled. */
  datatype Purpose = PlanFor(request: PlanningRequest) | ExtractFrom(voiceText: string)

  /** One `axios.post` to the chat-completions endpoint. */
  datatype ChatRequest = ChatRequest(url: string, authorization: string, model: string, purpose: Purpose,
                                     temperature: real, maxTokens: Option<int>)

  /** The outcome of the request: the first choice's message content, or a thrown error with
      the API's `error.message` from the response body and the error's own `message`. */
  datatype HttpReply = Reply(content: string) | HttpError(apiMessage: Option<string>, message: Option<string>)

  function Failed(error: string): PlanningResponse {
    PlanningResponse(false, None, Some(error))
  }

  class AIService {
    var apiKey: string
    var baseURL: string
    var model: string
    var provider: string

    constructor ()
      ensures apiKey == "" && baseURL == OpenAIUrl && model == OpenAIModel && provider == ProviderName(OpenAI)
    {
      apiKey := "";
      baseURL := OpenAIUrl;
      model := OpenAIModel;
      provider := ProviderName(OpenAI);
    }

    method SetApiKey(key: string)
      modifies this`apiKey
      ensures apiKey == key
    {
      apiKey := key;
    }

    method SetBaseUrl(url: string)
      modifies this`baseURL
      ensures baseURL == url
    {
      baseURL := url;
    }

    method SetModel(m: string)
      modifies this`model
      ensures model == m
    {
      model := m;
    }

    method SetProvider(p: string)
      modifies this`provider
      ensures provider == p
    {
      provider := p;
    }

    /** Sets all four fields from the provider table; the previous state plays no part. */
    method ConfigureProvider(p: Provider, key: string, customUrl: Option<string>, customModel: Option<string>)
      modifies this
      ensures provider == ProviderName(p) && apiKey == key
      ensures baseURL == ProviderUrl(p, customUrl) && model == ProviderModel(p, customModel)
      ensures forall purpose :: Call(purpose).url == ProviderUrl(p, customUrl) + CompletionsPath
      ensures forall purpose :: Call(purpose).authorization == "Bearer " + key
      ensures forall purpose :: Call(purpose).model == ProviderModel(p, customModel)
    {
      provider := ProviderName(p);
      apiKey := key;
      match p {
        case OpenAI =>
          baseURL := OpenAIUrl;
          model := OrElse(customModel, OpenAIModel);
        case DeepSeek =>
          baseURL := DeepSeekUrl;
          model := OrElse(customModel, DeepSeekModel);
        case Qwen =>
          baseURL := QwenUrl;
          model := OrElse(customModel, QwenModel);
        case Kimi =>
          baseURL := KimiUrl;
          model := OrElse(customModel, KimiModel);
        case Other =>
          baseURL := OrElse(customUrl, OpenAIUrl);
          model := OrElse(customModel, OpenAIModel);
      }
    }

    /** The request the service sends for a purpose, from its current fields. */
    function Call(purpose: Purpose): (r: ChatRequest)
      reads this
      ensures r.url == baseURL + CompletionsPath && r.authorization == "Bearer " + apiKey
      ensures r.model == model && r.purpose == purpose
    {
      if purpose.PlanFor? then
        ChatRequest(baseURL + CompletionsPath, "Bearer " + apiKey, model, purpose, PlanTemperature, Some(PlanMaxTokens))
      else
        ChatRequest(baseURL + CompletionsPath, "Bearer " + apiKey, model, purpose, ExtractTemperature, None)
    }

    /** `generateTravelPlan`: refuses without an API key before any request; otherwise sends
        one request and turns its reply into a draft plan or an error message. */
    method GenerateTravelPlan(request: PlanningRequest, post: ChatRequest -> HttpReply,
                              parse: string -> Option<PlanData>, stamps: Stamps)
      returns (response: PlanningResponse, sent: seq<ChatRequest>)
      ensures apiKey == "" ==> response == Failed(MissingKeyError) && sent == []
      ensures apiKey != "" ==> sent == [Call(PlanFor(request))]
      ensures response.success <==> response.plan.Some?
      ensures response.success <==> response.error.None?
      ensures !response.success ==> response.error.value != ""
      ensures response.success <==>
        apiKey != "" && post(Call(PlanFor(request))).Reply?
        && ParsePlanResponse(post(Call(PlanFor(request))).content, request, parse, stamps).Success?
      ensures response.success ==>
        response.plan.value == ParsePlanResponse(post(Call(PlanFor(request))).content, request, parse, stamps).value
      ensures apiKey != "" && post(Call(PlanFor(request))).Reply? && !response.success ==>
        response.error == Some(ParseError)
    {
      if apiKey == "" {
        return Failed(MissingKeyError), [];
      }
      var call := Call(PlanFor(request));
      sent := [call];
      match post(call) {
        case HttpError(apiMessage, message) =>
          response := Failed(OrElse(apiMessage, OrElse(message, PlanFallbackError)));
        case Reply(content) =>
          match ParsePlanResponse(content, request, parse, stamps) {
            case Success(plan) =>
              response := PlanningResponse(true, Some(plan), None);
            case Failure(error) =>
              response := Failed(error);
          }
      }
    }

    /** `generateFromVoiceInput`: refuses without an API key before any request; otherwise
        asks the model for a trip request, parses it and hands it to `GenerateTravelPlan`. A
        failed parse reports the parser's message. */
    method GenerateFromVoiceInput(voiceText: string, post: ChatRequest -> HttpReply,
                                  parseRequest: string -> Result<PlanningRequest, string>,
                                  parse: string -> Option<PlanData>, stamps: Stamps)
      returns (response: PlanningResponse, sent: seq<ChatRequest>)
      ensures apiKey == "" ==> response == Failed(MissingKeyError) && sent == []
      ensures apiKey != "" ==> |sent| >= 1 && sent[0] == Call(ExtractFrom(voiceText))
      ensures response.success <==> response.plan.Some?
      ensures response.success <==> response.error.None?
      ensures !response.success ==> response.error.value != ""
      ensures apiKey != "" && post(Call(ExtractFrom(voiceText))).HttpError? ==>
        && response == Failed(OrElse(post(Call(ExtractFrom(voiceText))).message, VoiceFallbackError))
        && sent == [Call(ExtractFrom(voiceText))]
      ensures apiKey != "" && post(Call(ExtractFrom(voiceText))).Reply? ==>
        var extracted := parseRequest(ExtractJson(post(Call(ExtractFrom(voiceText))).content));
        && (extracted.Failure? ==>
              response == Failed(OrElse(Some(extracted.error), VoiceFallbackError))
              && sent == [Call(ExtractFrom(voiceText))])
        && (extracted.Success? ==>
              var planCall := Call(PlanFor(extracted.value));
              && sent == [Call(ExtractFrom(voiceText)), planCall]
              && (response.success <==>
                    post(planCall).Reply? && ParsePlanResponse(post(planCall).content, extracted.value, parse, stamps).Success?)
              && (response.success ==>
                    response.plan.value == ParsePlanResponse(post(planCall).content, extracted.value, parse, stamps).value))
      ensures response.success ==>
        apiKey != "" && post(Call(ExtractFrom(voiceText))).Reply?
        && parseRequest(ExtractJson(post(Call(ExtractFrom(voiceText))).content)).Success?
    {
      if apiKey == "" {
        return Failed(MissingKeyError), [];
      }
      var call := Call(ExtractFrom(voiceText));
      match post(call) {
        case HttpError(_, message) =>
          response, sent := Failed(OrElse(message, VoiceFallbackError)), [call];
        case Reply(content) =>
          match parseRequest(ExtractJson(content)) {
            case Failure(error) =>
              response, sent := Failed(OrElse(Some(error), VoiceFallbackError)), [call];
            case Success(request) =>
              var more;
              response, more := GenerateTravelPlan(request, post, parse, stamps);
              sent := [call] + more;
          }
      }
    }
  }
}
