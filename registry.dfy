/**
 * The upstream monitor registry (SocialData's REST API) as the service sees it.
 * The HTTP client is not modelled: each endpoint is an oracle function from its
 * arguments to the resolved response or the thrown error, and every operation
 * of the core reports the trace of endpoint calls it made.
 */
module Registry {
  import opened Wrappers

  /** The three monitor types that can be created through Telegram. */
  datatype MonitorKind = UserTweets | UserFollowing | UserProfile

  /** The type string the registry and the Telegram callbacks use for a kind. */
  function KindName(k: MonitorKind): string {
    match k
    case UserTweets => "user_tweets"
    case UserFollowing => "user_following"
    case UserProfile => "user_profile"
  }

  /** The `{user_id, user_screen_name, webhook_url}` argument of a creation request. */
  datatype Params = Params(userId: Option<string>, userScreenName: Option<string>, webhookUrl: Option<string>)

  /** A monitor record: id, `monitor_type`, `created_at` and `parameters.user_screen_name`. */
  datatype MonitorRecord = MonitorRecord(id: string, monitorType: string, createdAt: string, screenName: Option<string>)

  /** The JSON body of a create, get or delete response: `{status?, message?, data?}`. */
  datatype ApiResponse = ApiResponse(status: Option<string>, message: Option<string>, data: Option<MonitorRecord>)

  /** The JSON body of the monitor listing: `{data?}`. */
  datatype ListResponse = ListResponse(data: Option<seq<MonitorRecord>>)

  /** A thrown error: its `message`, and `response.data.message` when the registry answered with one. */
  datatype Error = Error(message: string, responseMessage: Option<string>)

  /** One request to the registry. */
  datatype Call =
    | CreateCall(kind: MonitorKind, params: Params)
    | ListCall(page: nat)
    | DetailsCall(id: string)
    | DeleteCall(id: string)

  /** The registry's answer to every request it may receive. */
  datatype Service = Service(
    create: (MonitorKind, Params) -> Result<ApiResponse, Error>,
    list: nat -> Result<ListResponse, Error>,
    details: string -> Result<ApiResponse, Error>,
    delete: string -> Result<ApiResponse, Error>)

  /** A value together with the registry calls made to obtain it, in order. */
  datatype Traced<T> = Traced(result: T, calls: seq<Call>)

  /** The fixed answer of `createPumpFunMonitor`: the feature is switched off and nothing is requested. */
  const PumpFunResponse: ApiResponse :=
    ApiResponse(Some("error"), Some("\U{1F6AB} Pump.fun monitor creation is disabled due to cost restrictions."), None)
}
