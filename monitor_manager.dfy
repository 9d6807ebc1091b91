/**
 * The monitor manager: a decision table from a type string to the registry
 * operation that creates that kind of monitor, and pass-through wrappers for
 * deletion, details and listing. Errors of the registry are re-thrown as they are.
 */
module MonitorManager {
  import opened Wrappers
  import opened Registry

  const PumpFunType := "pump_fun"

  /** The error thrown for a type string the switch does not know. */
  const InvalidType := Error("Invalid monitor type", None)

  /** The kind a `case` label of the switch stands for. */
  function ParseKind(s: string): (r: Option<MonitorKind>)
    ensures forall k :: r == Some(k) <==> s == KindName(k)
  {
    if s == "user_tweets" then Some(UserTweets)
    else if s == "user_following" then Some(UserFollowing)
    else if s == "user_profile" then Some(UserProfile)
    else None
  }

  /** Every kind's name is read back as that kind. */
  lemma ParseKindName(k: MonitorKind)
    ensures ParseKind(KindName(k)) == Some(k)
  {
  }

  /** `createMonitor(type, params)`. */
  function CreateMonitor(svc: Service, monitorType: string, params: Params): (r: Traced<Result<ApiResponse, Error>>)
    ensures forall k :: monitorType == KindName(k) ==>
              r.calls == [CreateCall(k, params)] && r.result == svc.create(k, params)
    ensures monitorType == PumpFunType ==> r.calls == [] && r.result == Success(PumpFunResponse)
    ensures ParseKind(monitorType).None? && monitorType != PumpFunType ==>
              r.calls == [] && r.result == Failure(InvalidType)
    ensures |r.calls| <= 1
  {
    match ParseKind(monitorType)
    case Some(k) => Traced(svc.create(k, params), [CreateCall(k, params)])
    case None =>
      if monitorType == PumpFunType then Traced(Success(PumpFunResponse), [])
      else Traced(Failure(InvalidType), [])
  }

  /** `deleteMonitor(monitorId)`. */
  function DeleteMonitor(svc: Service, monitorId: string): (r: Traced<Result<ApiResponse, Error>>)
    ensures r.calls == [DeleteCall(monitorId)] && r.result == svc.delete(monitorId)
  {
    Traced(svc.delete(monitorId), [DeleteCall(monitorId)])
  }

  /** `getMonitorDetails(monitorId)`. */
  function GetMonitorDetails(svc: Service, monitorId: string): (r: Traced<Result<ApiResponse, Error>>)
    ensures r.calls == [DetailsCall(monitorId)] && r.result == svc.details(monitorId)
  {
    Traced(svc.details(monitorId), [DetailsCall(monitorId)])
  }

  /** `listMonitors(page)`. */
  function ListMonitors(svc: Service, page: nat): (r: Traced<Result<ListResponse, Error>>)
    ensures r.calls == [ListCall(page)] && r.result == svc.list(page)
  {
    Traced(svc.list(page), [ListCall(page)])
  }
}
