/** `ConfigContext`: the API configuration record, the spread merge of `updateConfig`, the
    `isConfigured` flag and the rules by which `applyConfig` hands the record to the AI, voice
    and map services. React state is the field `config`; the `localStorage` entry is the
    field `stored`; `JSON.parse` and `JSON.stringify` are function values. */
module Config {
  import opened Wrappers
  import opened Planner
  import Signer
  import Voice
  import Ai

  /** `ApiConfig`: every key is optional. */
  datatype ApiConfig = ApiConfig(
    aiProvider: Option<Provider>, aiApiKey: Option<string>, aiBaseUrl: Option<string>, aiModel: Option<string>,
    xunfeiAppId: Option<string>, xunfeiApiKey: Option<string>, xunfeiApiSecret: Option<string>,
    amapKey: Option<string>)

  /** The `{}` the context starts from. */
  const EmptyConfig: ApiConfig := ApiConfig(None, None, None, None, None, None, None, None)

  /** `Partial<ApiConfig>` as a spread source: `None` leaves a key out, `Some(v)` carries it
      (with `v == None` for a key present with value `undefined`). */
  datatype ConfigPatch = ConfigPatch(
    aiProvider: Option<Option<Provider>>, aiApiKey: Option<Option<string>>,
    aiBaseUrl: Option<Option<string>>, aiModel: Option<Option<string>>,
    xunfeiAppId: Option<Option<string>>, xunfeiApiKey: Option<Option<string>>,
    xunfeiApiSecret: Option<Option<string>>, amapKey: Option<Option<string>>)

  const NoChange: ConfigPatch := ConfigPatch(None, None, None, None, None, None, None, None)

  datatype Field = AiProvider | AiApiKey | AiBaseUrl | AiModel | XunfeiAppId | XunfeiApiKey | XunfeiApiSecret | AmapKey

  /** Whether the patch carries key f. */
  predicate Supplies(p: ConfigPatch, f: Field) {
    match f
    case AiProvider => p.aiProvider.Some?
    case AiApiKey => p.aiApiKey.Some?
    case AiBaseUrl => p.aiBaseUrl.Some?
    case AiModel => p.aiModel.Some?
    case XunfeiAppId => p.xunfeiAppId.Some?
    case XunfeiApiKey => p.xunfeiApiKey.Some?
    case XunfeiApiSecret => p.xunfeiApiSecret.Some?
    case AmapKey => p.amapKey.Some?
  }

  /** Whether two configurations hold the same value at key f. */
  predicate Agree(a: ApiConfig, b: ApiConfig, f: Field) {
    match f
    case AiProvider => a.aiProvider == b.aiProvider
    case AiApiKey => a.aiApiKey == b.aiApiKey
    case AiBaseUrl => a.aiBaseUrl == b.aiBaseUrl
    case AiModel => a.aiModel == b.aiModel
    case XunfeiAppId => a.xunfeiAppId == b.xunfeiAppId
    case XunfeiApiKey => a.xunfeiApiKey == b.xunfeiApiKey
    case XunfeiApiSecret => a.xunfeiApiSecret == b.xunfeiApiSecret
    case AmapKey => a.amapKey == b.amapKey
  }

  /** Whether configuration c holds at key f the value the patch carries there. */
  predicate Takes(c: ApiConfig, p: ConfigPatch, f: Field) {
    match f
    case AiProvider => p.aiProvider.Some? && c.aiProvider == p.aiProvider.value
    case AiApiKey => p.aiApiKey.Some? && c.aiApiKey == p.aiApiKey.value
    case AiBaseUrl => p.aiBaseUrl.Some? && c.aiBaseUrl == p.aiBaseUrl.value
    case AiModel => p.aiModel.Some? && c.aiModel == p.aiModel.value
    case XunfeiAppId => p.xunfeiAppId.Some? && c.xunfeiAppId == p.xunfeiAppId.value
    case XunfeiApiKey => p.xunfeiApiKey.Some? && c.xunfeiApiKey == p.xunfeiApiKey.value
    case XunfeiApiSecret => p.xunfeiApiSecret.Some? && c.xunfeiApiSecret == p.xunfeiApiSecret.value
    case AmapKey => p.amapKey.Some? && c.amapKey == p.amapKey.value
  }

  function Pick<T>(current: Option<T>, supplied: Option<Option<T>>): Option<T> {
    if supplied.Some? then supplied.value else current
  }

  /** `{ ...config, ...patch }`: the supplied keys take the patch's values, every other key
      keeps the old one. */
  function Merge(c: ApiConfig, p: ConfigPatch): (r: ApiConfig)
    ensures forall f :: Supplies(p, f) ==> Takes(r, p, f)
    ensures forall f :: !Supplies(p, f) ==> Agree(r, c, f)
  {
    ApiConfig(
      Pick(c.aiProvider, p.aiProvider), Pick(c.aiApiKey, p.aiApiKey),
      Pick(c.aiBaseUrl, p.aiBaseUrl), Pick(c.aiModel, p.aiModel),
      Pick(c.xunfeiAppId, p.xunfeiAppId), Pick(c.xunfeiApiKey, p.xunfeiApiKey),
      Pick(c.xunfeiApiSecret, p.xunfeiApiSecret), Pick(c.amapKey, p.amapKey))
  }

  /** The patch that applies p and then q. */
  function Then(p: ConfigPatch, q: ConfigPatch): ConfigPatch {
    ConfigPatch(
      if q.aiProvider.Some? then q.aiProvider else p.aiProvider,
      if q.aiApiKey.Some? then q.aiApiKey else p.aiApiKey,
      if q.aiBaseUrl.Some? then q.aiBaseUrl else p.aiBaseUrl,
      if q.aiModel.Some? then q.aiModel else p.aiModel,
      if q.xunfeiAppId.Some? then q.xunfeiAppId else p.xunfeiAppId,
      if q.xunfeiApiKey.Some? then q.xunfeiApiKey else p.xunfeiApiKey,
      if q.xunfeiApiSecret.Some? then q.xunfeiApiSecret else p.xunfeiApiSecret,
      if q.amapKey.Some? then q.amapKey else p.amapKey)
  }

  /** An empty update leaves the configuration as it was. */
  lemma MergeNoChange(c: ApiConfig)
    ensures Merge(c, NoChange) == c
  {
  }

  /** Applying the same update twice is applying it once. */
  lemma MergeIdempotent(c: ApiConfig, p: ConfigPatch)
    ensures Merge(Merge(c, p), p) == Merge(c, p)
  {
  }

  /** Two successive updates are one update with the later values winning. */
  lemma MergeThen(c: ApiConfig, p: ConfigPatch, q: ConfigPatch)
    ensures Merge(Merge(c, p), q) == Merge(c, Then(p, q))
  {
  }

  /** A key is present when it is set to a non-empty value (JavaScript truthiness). */
  predicate Present(c: ApiConfig, f: Field) {
    match f
    case AiProvider => c.aiProvider.Some?
    case AiApiKey => Truthy(c.aiApiKey)
    case AiBaseUrl => Truthy(c.aiBaseUrl)
    case AiModel => Truthy(c.aiModel)
    case XunfeiAppId => Truthy(c.xunfeiAppId)
    case XunfeiApiKey => Truthy(c.xunfeiApiKey)
    case XunfeiApiSecret => Truthy(c.xunfeiApiSecret)
    case AmapKey => Truthy(c.amapKey)
  }

  /** The keys `isConfigured` demands: all but the optional base URL and model. */
  predicate Required(f: Field) {
    f != AiBaseUrl && f != AiModel
  }

  /** `applyConfig` configures the AI service. */
  predicate AiGate(c: ApiConfig) {
    Truthy(c.aiApiKey) && c.aiProvider.Some?
  }

  /** `applyConfig` configures the voice service. */
  predicate VoiceGate(c: ApiConfig) {
    Truthy(c.xunfeiAppId) && Truthy(c.xunfeiApiKey) && Truthy(c.xunfeiApiSecret)
  }

  /** `applyConfig` configures the map service. */
  predicate MapGate(c: ApiConfig) {
    Truthy(c.amapKey)
  }

  /** `isConfigured`: the six-way conjunction. It holds exactly when every required key is
      present, and exactly when all three services get configured. */
  function IsConfigured(c: ApiConfig): (r: bool)
    ensures r <==> forall f :: Required(f) ==> Present(c, f)
    ensures r <==> AiGate(c) && VoiceGate(c) && MapGate(c)
  {
    assert Required(AiProvider) && Required(AiApiKey) && Required(XunfeiAppId);
    assert Required(XunfeiApiKey) && Required(XunfeiApiSecret) && Required(AmapKey);
    Truthy(c.aiApiKey) && c.aiProvider.Some? && Truthy(c.xunfeiAppId) && Truthy(c.xunfeiApiKey)
    && Truthy(c.xunfeiApiSecret) && Truthy(c.amapKey)
  }

  /** The credentials the voice service receives. */
  function VoiceCredentials(c: ApiConfig): (r: Signer.XunfeiConfig)
    requires VoiceGate(c)
    ensures r.appId == c.xunfeiAppId.value && r.apiKey == c.xunfeiApiKey.value && r.apiSecret == c.xunfeiApiSecret.value
    ensures r.appId != "" && r.apiKey != "" && r.apiSecret != ""
  {
    Signer.XunfeiConfig(c.xunfeiAppId.value, c.xunfeiApiKey.value, c.xunfeiApiSecret.value)
  }

  /** The part of `MapService` that configuration touches. */
  class MapService {
    var apiKey: string

    constructor ()
      ensures apiKey == ""
    {
      apiKey := "";
    }

    method SetApiKey(key: string)
      modifies this`apiKey
      ensures apiKey == key
    {
      apiKey := key;
    }
  }

  /** The configuration provider with the three services it drives. */
  class ConfigProvider {
    var config: ApiConfig
    var stored: Option<string>
    const ai: Ai.AIService
    const voice: Voice.VoiceService
    const maps: MapService

    /** The state right after mounting, before the stored configuration is loaded. */
    constructor (stored: Option<string>, ai: Ai.AIService, voice: Voice.VoiceService, maps: MapService)
      ensures config == EmptyConfig && this.stored == stored
      ensures this.ai == ai && this.voice == voice && this.maps == maps
    {
      config := EmptyConfig;
      this.stored := stored;
      this.ai := ai;
      this.voice := voice;
      this.maps := maps;
    }

    /** The AI service holds what `configureProvider` sets for c. */
    ghost predicate AiConfiguredFor(c: ApiConfig)
      reads ai
      requires AiGate(c)
    {
      && ai.provider == ProviderName(c.aiProvider.value) && ai.apiKey == c.aiApiKey.value
      && ai.baseURL == Ai.ProviderUrl(c.aiProvider.value, c.aiBaseUrl)
      && ai.model == Ai.ProviderModel(c.aiProvider.value, c.aiModel)
    }

    /** `applyConfig`: each service is configured exactly when its gate is open, from c alone. */
    method ApplyConfig(c: ApiConfig)
      requires voice.Valid()
      modifies ai, voice`config, maps
      ensures voice.Valid() && (old(voice.SingleDelivery()) ==> voice.SingleDelivery())
      ensures AiGate(c) ==> AiConfiguredFor(c)
      ensures !AiGate(c) ==> unchanged(ai)
      ensures VoiceGate(c) ==> voice.config == Some(VoiceCredentials(c))
      ensures !VoiceGate(c) ==> voice.config == old(voice.config)
      ensures MapGate(c) ==> maps.apiKey == c.amapKey.value
      ensures !MapGate(c) ==> unchanged(maps)
    {
      if AiGate(c) {
        ai.ConfigureProvider(c.aiProvider.value, c.aiApiKey.value, c.aiBaseUrl, c.aiModel);
      }
      if VoiceGate(c) {
        voice.SetConfig(VoiceCredentials(c));
      }
      if MapGate(c) {
        maps.SetApiKey(c.amapKey.value);
      }
    }

    /** The mount effect: a stored entry that parses becomes the state and is applied; an
        absent or empty entry, or one that does not parse, changes nothing. */
    method Load(parse: string -> Option<ApiConfig>)
      requires voice.Valid()
      modifies this`config, ai, voice`config, maps
      ensures voice.Valid() && (old(voice.SingleDelivery()) ==> voice.SingleDelivery())
      ensures Truthy(stored) && parse(stored.value).Some? ==>
        && config == parse(stored.value).value
        && (AiGate(config) ==> AiConfiguredFor(config))
        && (VoiceGate(config) ==> voice.config == Some(VoiceCredentials(config)))
        && (MapGate(config) ==> maps.apiKey == config.amapKey.value)
        && (!AiGate(config) ==> unchanged(ai))
        && (!VoiceGate(config) ==> voice.config == old(voice.config))
        && (!MapGate(config) ==> unchanged(maps))
      ensures !(Truthy(stored) && parse(stored.value).Some?) ==>
        config == old(config) && unchanged(ai, maps) && voice.config == old(voice.config)
    {
      if Truthy(stored) {
        match parse(stored.value) {
          case Some(parsed) =>
            config := parsed;
            ApplyConfig(parsed);
          case None =>
        }
      }
    }

    /** `updateConfig`: the merged record becomes the state, is what is written to storage
        and is what the services are configured from. */
    method UpdateConfig(patch: ConfigPatch, stringify: ApiConfig -> string)
      requires voice.Valid()
      modifies this`config, this`stored, ai, voice`config, maps
      ensures voice.Valid() && (old(voice.SingleDelivery()) ==> voice.SingleDelivery())
      ensures config == Merge(old(config), patch)
      ensures stored == Some(stringify(config))
      ensures AiGate(config) ==> AiConfiguredFor(config)
      ensures !AiGate(config) ==> unchanged(ai)
      ensures VoiceGate(config) ==> voice.config == Some(VoiceCredentials(config))
      ensures !VoiceGate(config) ==> voice.config == old(voice.config)
      ensures MapGate(config) ==> maps.apiKey == config.amapKey.value
      ensures !MapGate(config) ==> unchanged(maps)
    {
      var updated := Merge(config, patch);
      config := updated;
      stored := Some(stringify(updated));
      ApplyConfig(updated);
    }

    /** The `isConfigured` value the context exposes. */
    function Configured(): (r: bool)
      reads this
      ensures r <==> AiGate(config) && VoiceGate(config) && MapGate(config)
    {
      IsConfigured(config)
    }
  }
}
