/** org.dsmk.api.Result: the pass/fail value returned by every lifecycle call. */
module Results {
  import opened Lang

  /** Result.Status */
  datatype Status = Ok | NotOk

  /** A Result is immutable: its accessors getStatus, getCode and getMsg are
      the destructors `status`, `code` and `msg`. The status is optional
      because Java lets a Result be built with a null status. */
  datatype Result = Result(status: Option<Status>, code: string, msg: string)
  {
    predicate IsOK()
    {
      status == Some(Ok)
    }

    predicate IsNotOK()
    {
      status == Some(NotOk)
    }
  }

  /** The shared constant Result.OK. */
  function OkResult(): (r: Result)
    ensures r.IsOK() && !r.IsNotOK()
    ensures r.code == "common.status.ok" && r.msg == "common.msg.success"
  {
    Result(Some(Ok), "common.status.ok", "common.msg.success")
  }

  /** The shared constant Result.NOT_OK. */
  function NotOkResult(): (r: Result)
    ensures r.IsNotOK() && !r.IsOK()
    ensures r.code == "common.status.notok" && r.msg == "common.msg.failure"
  {
    Result(Some(NotOk), "common.status.notok", "common.msg.failure")
  }

  /** isOK() and isNotOK() compare the status with OK and NOT_OK. Status has
      two values, so a Result built with a status is exactly one of OK and
      NOT_OK; one built with a null status is neither. */
  lemma StatusDecidesOkAndNotOk(r: Result)
    ensures r.IsOK() <==> r.status == Some(Ok)
    ensures r.IsNotOK() <==> r.status == Some(NotOk)
    ensures r.status.Some? ==> r.IsOK() != r.IsNotOK()
    ensures r.status.None? ==> !r.IsOK() && !r.IsNotOK()
  {
    if r.status.Some? {
      match r.status.value
      case Ok =>
      case NotOk =>
    }
  }
}
