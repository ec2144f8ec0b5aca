/**
 * `NetworkManager`: the two `fetchWeatherData` variants as functions from what the URL
 * parser, the session and the JSON decoder produced to what the variant returns or throws,
 * and `NetworkError` with its `errorDescription`.
 *
 * Whether the fixed endpoint text parses as a URL is a `bool`; the session's reply is a
 * value; the decoder is a function parameter; `NSLocalizedString` is a string table.
 */
module Networking {
  import opened Wrappers
  import opened WeatherModels

  /** Body bytes of a reply. */
  type Data = seq<bv8>

  /** The `URLResponse` of a reply: an `HTTPURLResponse` with its status code, or some other kind. */
  datatype UrlResponse = HttpResponse(statusCode: int) | OtherResponse

  /** What `try await session.data(from:)` does: throw a transport fault, or deliver a reply. */
  datatype DataReply = TransportFault(description: string) | Delivered(data: Data, response: UrlResponse)

  /** The three optionals `session.dataTask(with:)` hands to its completion handler. */
  datatype TaskReply = TaskReply(data: Option<Data>, response: Option<UrlResponse>, error: Option<string>)

  /** `JSONDecoder().decode(WeatherResponse.self, from:)`: a value, or a `DecodingError` with its text. */
  type Decoder = Data -> Result<WeatherResponse, string>

  /** A localized-string lookup, key to display text. */
  type StringTable = string -> string

  datatype NetworkError =
    | InvalidURL
    | InvalidResponse
    | DecodingError
    | ApiError(message: string)
    | Unknown(cause: SwiftError)

  /** A value of Swift's `Error` existential, as far as this code distinguishes them. */
  datatype SwiftError =
    | Net(error: NetworkError)
    | Decoding(description: string)
    | Foundation(description: string)

  /** What the async variant does: return a result, or throw. */
  datatype AsyncOutcome = Returned(result: WeatherResult) | Threw(error: SwiftError)

  /** `errorDescription` of a `NetworkError`; it is never `nil`. */
  function ErrorDescription(e: NetworkError, strings: StringTable): (r: Option<string>)
    ensures r.Some?
    ensures e.ApiError? ==> r == Some(e.message)
    decreases e
  {
    match e
    case InvalidURL => Some(strings("Invalid URL"))
    case InvalidResponse => Some(strings("Invalid response from server"))
    case DecodingError => Some(strings("Failed to decode data"))
    case ApiError(message) => Some(message)
    case Unknown(cause) => Some(LocalizedDescription(cause, strings))
  }

  /**
   * `localizedDescription` of an error: for a `NetworkError` (a `LocalizedError`) its
   * `errorDescription`, otherwise the error's own description. A Swift `DecodingError` has no
   * `errorDescription`, so Foundation would give it a generic text instead; neither fetch variant
   * ever builds `unknown` around a decoding error (see `FetchAsync`), so no message shown depends
   * on that case.
   */
  function LocalizedDescription(e: SwiftError, strings: StringTable): (r: string)
    ensures e.Net? ==> ErrorDescription(e.error, strings) == Some(r)
    ensures e.Net? && e.error.ApiError? ==> r == e.error.message
    ensures e.Foundation? ==> r == e.description
    decreases e
  {
    match e
    case Net(n) => ErrorDescription(n, strings).value
    case Decoding(description) => description
    case Foundation(description) => description
  }

  predicate IsOkHttp(response: UrlResponse) {
    response.HttpResponse? && response.statusCode == 200
  }

  /** The `do` block of the async variant: decode, then throw `apiError` when `status` is false. */
  function AsyncDecodeBlock(data: Data, decode: Decoder): Result<WeatherResult, SwiftError> {
    match decode(data)
    case Failure(description) => Failure(Decoding(description))
    case Success(payload) =>
      if !payload.response.status then Failure(Net(ApiError(payload.response.message)))
      else Success(payload.response.result)
  }

  /** The two `catch` clauses of the async variant: a `DecodingError`, then everything else. */
  function AsyncCatch(e: SwiftError): NetworkError {
    match e
    case Decoding(_) => DecodingError
    case _ => Unknown(e)
  }

  /** `fetchWeatherData() async throws`. */
  function FetchAsync(urlParses: bool, reply: DataReply, decode: Decoder): (r: AsyncOutcome)
    ensures r.Threw? && r.error.Net? ==> !r.error.error.ApiError?
    ensures r.Threw? && !r.error.Net? ==> urlParses && reply.TransportFault?
    ensures r.Threw? && r.error.Net? && r.error.error.Unknown? ==> !r.error.error.cause.Decoding?
  {
    if !urlParses then Threw(Net(InvalidURL))
    else match reply
      case TransportFault(description) => Threw(Foundation(description))
      case Delivered(data, response) =>
        if !IsOkHttp(response) then Threw(Net(InvalidResponse))
        else match AsyncDecodeBlock(data, decode)
          case Success(result) => Returned(result)
          case Failure(e) => Threw(Net(AsyncCatch(e)))
  }

  /** `fetchWeatherData(completion:)`: the value passed to the completion handler. */
  function FetchWithCompletion(urlParses: bool, reply: TaskReply, decode: Decoder): (r: Result<WeatherResult, NetworkError>)
    ensures r.Failure? && r.error.Unknown? <==> urlParses && reply.error.Some?
    ensures r.Failure? && r.error.Unknown? ==> r.error.cause == Foundation(reply.error.value)
  {
    if !urlParses then Failure(InvalidURL)
    else if reply.error.Some? then Failure(Unknown(Foundation(reply.error.value)))
    else if reply.data.None? || reply.response.None? || !IsOkHttp(reply.response.value) then Failure(InvalidResponse)
    else match decode(reply.data.value)
      case Failure(_) => Failure(DecodingError)
      case Success(payload) =>
        if !payload.response.status then Failure(ApiError(payload.response.message))
        else Success(payload.response.result)
  }

  // ---------------------------------------------------------------------------
  // Properties
  // ---------------------------------------------------------------------------

  /** `errorDescription`: fixed texts for three cases, the server's message verbatim for `apiError`. */
  lemma ErrorDescriptionTable(strings: StringTable, message: string)
    ensures ErrorDescription(InvalidURL, strings) == Some(strings("Invalid URL"))
    ensures ErrorDescription(InvalidResponse, strings) == Some(strings("Invalid response from server"))
    ensures ErrorDescription(DecodingError, strings) == Some(strings("Failed to decode data"))
    ensures ErrorDescription(ApiError(message), strings) == Some(message)
    ensures ErrorDescription(Unknown(Net(ApiError(message))), strings) == Some(message)
    ensures ErrorDescription(Unknown(Foundation(message)), strings) == Some(message)
  {
  }

  /** An unparsable URL fails both variants with `invalidURL`, whatever the session and decoder would do. */
  lemma InvalidUrlFailsFirst(reply: DataReply, taskReply: TaskReply, decode: Decoder)
    ensures FetchAsync(false, reply, decode) == Threw(Net(InvalidURL))
    ensures FetchWithCompletion(false, taskReply, decode) == Failure(InvalidURL)
  {
  }

  /** Async variant: a non-HTTP reply or a status other than 200 is `invalidResponse`; the body is not decoded. */
  lemma AsyncRejectsBadStatus(data: Data, response: UrlResponse, decode: Decoder, other: Decoder)
    requires !IsOkHttp(response)
    ensures FetchAsync(true, Delivered(data, response), decode) == Threw(Net(InvalidResponse))
    ensures FetchAsync(true, Delivered(data, response), decode) == FetchAsync(true, Delivered(data, response), other)
  {
  }

  /** Async variant: a fault from the session escapes as it is; it is not a `NetworkError`. */
  lemma AsyncTransportFaultEscapes(description: string, decode: Decoder)
    ensures FetchAsync(true, TransportFault(description), decode) == Threw(Foundation(description))
    ensures !FetchAsync(true, TransportFault(description), decode).error.Net?
  {
  }

  /** Async variant, status 200: a decoding failure is `decodingError`; `status == false` is `unknown(apiError(message))`. */
  lemma AsyncClassifiesPayload(data: Data, decode: Decoder)
    ensures decode(data).Failure? ==>
      FetchAsync(true, Delivered(data, HttpResponse(200)), decode) == Threw(Net(DecodingError))
    ensures decode(data).Success? && !decode(data).value.response.status ==>
      FetchAsync(true, Delivered(data, HttpResponse(200)), decode)
        == Threw(Net(Unknown(Net(ApiError(decode(data).value.response.message)))))
  {
  }

  /** Completion variant: the checks come in the order fault, reply, decoding, payload status. */
  lemma CompletionCheckOrder(reply: TaskReply, decode: Decoder)
    ensures reply.error.Some? ==>
      FetchWithCompletion(true, reply, decode) == Failure(Unknown(Foundation(reply.error.value)))
    ensures reply.error.None? && (reply.data.None? || reply.response.None? || !IsOkHttp(reply.response.value)) ==>
      FetchWithCompletion(true, reply, decode) == Failure(InvalidResponse)
    ensures reply.error.None? && reply.data.Some? && reply.response == Some(HttpResponse(200)) ==>
      var r := FetchWithCompletion(true, reply, decode);
      match decode(reply.data.value)
      case Failure(_) => r == Failure(DecodingError)
      case Success(payload) =>
        r == if payload.response.status then Success(payload.response.result)
             else Failure(ApiError(payload.response.message))
  {
  }

  /** Both variants succeed exactly when a 200 reply decodes with `status == true`, and return its `result`. */
  lemma SuccessOnlyOnTrueStatus(urlParses: bool, reply: DataReply, taskReply: TaskReply, decode: Decoder)
    ensures FetchAsync(urlParses, reply, decode).Returned? <==>
      urlParses && reply.Delivered? && IsOkHttp(reply.response) &&
      decode(reply.data).Success? && decode(reply.data).value.response.status
    ensures FetchAsync(urlParses, reply, decode).Returned? ==>
      FetchAsync(urlParses, reply, decode).result == decode(reply.data).value.response.result
    ensures FetchWithCompletion(urlParses, taskReply, decode).Success? <==>
      urlParses && taskReply.error.None? && taskReply.data.Some? && taskReply.response.Some? &&
      IsOkHttp(taskReply.response.value) &&
      decode(taskReply.data.value).Success? && decode(taskReply.data.value).value.response.status
    ensures FetchWithCompletion(urlParses, taskReply, decode).Success? ==>
      FetchWithCompletion(urlParses, taskReply, decode).value == decode(taskReply.data.value).value.response.result
  {
  }

  /**
   * The two variants, given the same delivered 200-or-not reply, agree except on `status == false`,
   * where the async variant wraps the same `apiError` in `unknown`; the message shown is the same.
   */
  lemma VariantsAgreeUpToApiErrorWrapping(data: Data, response: UrlResponse, decode: Decoder, strings: StringTable)
    ensures
      var a := FetchAsync(true, Delivered(data, response), decode);
      var c := FetchWithCompletion(true, TaskReply(Some(data), Some(response), None), decode);
      match c
      case Success(result) => a == Returned(result)
      case Failure(ApiError(m)) =>
        a == Threw(Net(Unknown(Net(ApiError(m))))) &&
        ErrorDescription(a.error.error, strings) == ErrorDescription(c.error, strings)
      case Failure(e) => a == Threw(Net(e))
  {
  }
}
