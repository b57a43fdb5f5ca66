/** `WPClient`: the three-way choice of how request data is supplied, the request
    descriptor built from a client configuration, and the client's error cases. */
module API {
  import opened Wrappers

  /** Types owned by the REST library or the caller: the HTTP verb, the parameter
      encoding tag, the untyped values of a parameter map (`Any`), and the error the
      JSON encoder throws. */
  type HttpMethod(==)
  type ParameterEncoding(==)
  type Value
  type EncodingError

  newtype Byte = b: int | 0 <= b < 0x100

  /** Serialized request body (`Data`). */
  type Data = seq<Byte>

  /** `NetworkError`: the client's own failure classification. */
  datatype NetworkError = UrlMalformed | Api | Unknown
  {
    /** `errorDescription`: a fixed, non-empty text for every case. */
    function ErrorDescription(): (d: Option<string>)
      ensures d.Some? && |d.value| > 0
      ensures UrlMalformed? ==> d.value == "URL is malformed."
      ensures Api? ==> d.value == "API returned an unexpected response."
      ensures Unknown? ==> d.value == "Unknown error."
    {
      match this
      case UrlMalformed => Some("URL is malformed.")
      case Api => Some("API returned an unexpected response.")
      case Unknown => Some("Unknown error.")
    }
  }

  /** The description tells the cases apart: two errors share a description exactly
      when they are the same case. */
  lemma ErrorDescriptionsDistinct(e1: NetworkError, e2: NetworkError)
    ensures e1.ErrorDescription() == e2.ErrorDescription() <==> e1 == e2
  {
  }

  /** How the request data is supplied: not at all, as a key/value map, or as an
      encodable model serialized into the body. */
  datatype ParameterType<M> = NoParameters | Object(dictionary: map<string, Value>) | Model(encodable: M)

  /** The part of `WPClientConfiguration` the initializer reads. */
  datatype Configuration<M> = Configuration(
    endpoint: string,
    httpMethod: HttpMethod,
    parameterType: ParameterType<M>,
    headers: map<string, string>,
    encoding: ParameterEncoding)

  /** The transport-level request descriptor (`RequestConfiguration`). */
  datatype RequestConfiguration = RequestConfiguration(
    urlString: string,
    httpMethod: HttpMethod,
    parameters: Option<map<string, Value>>,
    body: Option<Data>,
    headers: map<string, string>,
    encoding: ParameterEncoding)

  /** A constructed client, holding the descriptor every fetch submits. */
  datatype Client = Client(requestConfig: RequestConfiguration)

  /** What the initializer can throw: a `NetworkError` of its own, or the encoder's
      error passed through unwrapped. */
  datatype InitError = Network(reason: NetworkError) | Encoding(cause: EncodingError)

  /** A descriptor never carries both a parameter map and a body. */
  predicate Exclusive(rc: RequestConfiguration)
  {
    !(rc.parameters.Some? && rc.body.Some?)
  }

  /** The fields copied verbatim from the configuration, with the validated URL. */
  predicate CopiedFrom<M>(rc: RequestConfiguration, configuration: Configuration<M>, url: string)
  {
    && rc.urlString == url
    && rc.httpMethod == configuration.httpMethod
    && rc.headers == configuration.headers
    && rc.encoding == configuration.encoding
  }

  /** The parameter strategy a descriptor records, with a model already serialized. */
  function Strategy(rc: RequestConfiguration): (p: ParameterType<Data>)
    requires Exclusive(rc)
    ensures p.NoParameters? <==> rc.parameters.None? && rc.body.None?
    ensures p.Object? ==> rc.parameters == Some(p.dictionary)
    ensures p.Model? ==> rc.body == Some(p.encodable)
  {
    if rc.parameters.Some? then Object(rc.parameters.value)
    else if rc.body.Some? then Model(rc.body.value)
    else NoParameters
  }

  /** `WPClient.init`. `urlFor` is the URL composition and validation of
      `String.initialize(with:)`, yielding nothing when the endpoint does not form a
      valid URL; `encode` is `JSONEncoder.encode`. The URL is validated first in every
      branch, and the encoder is consulted only for a model, after the URL passed. */
  function Init<M>(configuration: Configuration<M>, urlFor: string -> Option<string>,
                   encode: M -> Result<Data, EncodingError>): (r: Result<Client, InitError>)
    ensures urlFor(configuration.endpoint).None? ==> r == Failure(Network(UrlMalformed))
    ensures r.Success? <==>
      && urlFor(configuration.endpoint).Some?
      && (configuration.parameterType.Model? ==> encode(configuration.parameterType.encodable).Success?)
    ensures r.Failure? && r.error.Network? ==>
      r.error.reason == UrlMalformed && urlFor(configuration.endpoint).None?
    ensures && urlFor(configuration.endpoint).Some?
            && configuration.parameterType.Model?
            && encode(configuration.parameterType.encodable).Failure?
            ==> r == Failure(Encoding(encode(configuration.parameterType.encodable).error))
    ensures r.Failure? && r.error.Encoding? ==>
      && configuration.parameterType.Model?
      && encode(configuration.parameterType.encodable) == Failure(r.error.cause)
    ensures r.Success? ==>
      && Exclusive(r.value.requestConfig)
      && CopiedFrom(r.value.requestConfig, configuration, urlFor(configuration.endpoint).value)
    ensures r.Success? ==>
      (r.value.requestConfig.parameters.Some? <==> configuration.parameterType.Object?)
    ensures r.Success? && configuration.parameterType.Object? ==>
      r.value.requestConfig.parameters == Some(configuration.parameterType.dictionary)
    ensures r.Success? ==>
      (r.value.requestConfig.body.Some? <==> configuration.parameterType.Model?)
    ensures r.Success? && configuration.parameterType.Model? ==>
      r.value.requestConfig.body == Some(encode(configuration.parameterType.encodable).value)
  {
    var httpMethod, headers, encoding := configuration.httpMethod, configuration.headers, configuration.encoding;
    match configuration.parameterType
    case Object(dictionary) =>
      (match urlFor(configuration.endpoint)
       case None => Failure(Network(UrlMalformed))
       case Some(url) =>
         Success(Client(RequestConfiguration(url, httpMethod, Some(dictionary), None, headers, encoding))))
    case Model(encodable) =>
      (match urlFor(configuration.endpoint)
       case None => Failure(Network(UrlMalformed))
       case Some(url) =>
         match encode(encodable)
         case Failure(e) => Failure(Encoding(e))
         case Success(body) =>
           Success(Client(RequestConfiguration(url, httpMethod, None, Some(body), headers, encoding))))
    case NoParameters =>
      (match urlFor(configuration.endpoint)
       case None => Failure(Network(UrlMalformed))
       case Some(url) =>
         Success(Client(RequestConfiguration(url, httpMethod, None, None, headers, encoding))))
  }

  /** The configuration's strategy with its model replaced by the bytes it encodes to. */
  function Encoded<M>(p: ParameterType<M>, encode: M -> Result<Data, EncodingError>): ParameterType<Data>
    requires p.Model? ==> encode(p.encodable).Success?
  {
    match p
    case NoParameters => NoParameters
    case Object(d) => Object(d)
    case Model(m) => Model(encode(m).value)
  }

  /** The descriptor records which of the three strategies the configuration chose:
      reading it back yields the configuration's strategy, with the model encoded. */
  lemma InitRecordsStrategy<M>(configuration: Configuration<M>, urlFor: string -> Option<string>,
                               encode: M -> Result<Data, EncodingError>)
    requires Init(configuration, urlFor, encode).Success?
    ensures var rc := Init(configuration, urlFor, encode).value.requestConfig;
      Strategy(rc) == Encoded(configuration.parameterType, encode)
  {
  }

  /** Once the URL is rejected the encoder plays no part: every encoder yields the
      same `urlMalformed` failure. */
  lemma UrlCheckedBeforeEncoding<M>(configuration: Configuration<M>, urlFor: string -> Option<string>,
                                    encode1: M -> Result<Data, EncodingError>,
                                    encode2: M -> Result<Data, EncodingError>)
    requires urlFor(configuration.endpoint).None?
    ensures Init(configuration, urlFor, encode1) == Init(configuration, urlFor, encode2)
                                                 == Failure(Network(UrlMalformed))
  {
  }

  /** Without a model the encoder is never consulted. */
  lemma EncoderOnlyForModel<M>(configuration: Configuration<M>, urlFor: string -> Option<string>,
                               encode1: M -> Result<Data, EncodingError>,
                               encode2: M -> Result<Data, EncodingError>)
    requires !configuration.parameterType.Model?
    ensures Init(configuration, urlFor, encode1) == Init(configuration, urlFor, encode2)
  {
  }
}
