/**
 * The values exchanged with the appraisal service: requests, responses,
 * history items and the progress events of the streaming endpoint.
 * Numbers that the service sends as JSON numbers are modelled as integers.
 */
module AppraisalTypes {
  import opened Wrappers

  datatype Classification = MassProduct | UniqueItem | UnknownItem | Prohibited

  datatype ConfidenceLevel = High | Medium | Low

  datatype Platform = Web | Ios | Android

  datatype PriceInfo = PriceInfo(minPrice: int, maxPrice: int, currency: string, displayMessage: string)

  datatype ConfidenceInfo = ConfidenceInfo(level: ConfidenceLevel, reasoning: string)

  /** The body of both analysis endpoints. */
  datatype AnalyzeRequest = AnalyzeRequest(imageBase64: string, userComment: Option<string>, platform: Option<Platform>)

  /** The structured result of one appraisal. */
  datatype AnalyzeResponse = AnalyzeResponse(
    appraisalId: Option<string>,
    itemName: Option<string>,
    identifiedProduct: Option<string>,
    visualFeatures: seq<string>,
    classification: Classification,
    price: Option<PriceInfo>,
    confidence: Option<ConfidenceInfo>,
    priceFactors: Option<seq<string>>,
    message: Option<string>,
    recommendation: Option<string>,
    retryAdvice: Option<string>)

  /** One row of the appraisal history. */
  datatype AppraisalHistoryItem = AppraisalHistoryItem(
    id: string,
    createdAt: string,
    itemName: Option<string>,
    classification: Classification,
    price: Option<PriceInfo>)

  /** The profile of the signed-in user. */
  datatype UserProfile = UserProfile(uid: string, createdAt: string, totalAppraisals: int, platform: Platform)

  /** The analysis stage a progress event belongs to. */
  datatype ThinkingNode = Vision | Search | PriceStage

  /** The `type` tag of a stream envelope; `Other` is a missing tag or one the client does not name. */
  datatype EventType = NodeStart | NodeProgress | NodeComplete | Complete | Error | Other

  /** One envelope of the event stream, as the stream's JSON parser produces it. */
  datatype ThinkingEvent = ThinkingEvent(
    eventType: EventType,
    node: Option<ThinkingNode>,
    message: Option<string>,
    timestamp: string,
    result: Option<AnalyzeResponse>)
}
