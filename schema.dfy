/**
  A declarative description of what a map-decoding write handler does: the
  ordered list of field checks it runs, the procedure it calls and the order
  of that call's parameters. `Reference` interprets such a description; each
  handler module proves that its straight-line handler agrees with it.
 */
module Schema {
  import opened Common

  /** The JSON type a required field must have. */
  datatype Kind = Number | Text

  /** One step of a handler's validation, in the order the handler runs it:
      a required field of a given JSON type, or an optional id converted by
      an unchecked `val.(float64)`. */
  datatype Step =
    | Required(name: string, kind: Kind)
    | OptionalNumber(name: string)

  datatype Verdict = Accepted | Rejected(field: string) | Panicked

  predicate HasKind(v: JsonVal, k: Kind)
  {
    match k
    case Number => v.JNum?
    case Text => v.JStr?
  }

  /** What one step decides on its own. */
  function StepResult(data: Fields, s: Step): (v: Verdict)
    ensures v.Rejected? <==> s.Required? && !(s.name in data && HasKind(data[s.name], s.kind))
    ensures v.Rejected? ==> v.field == s.name
    ensures v.Panicked? <==> s.OptionalNumber? && s.name in data && !data[s.name].JNum?
  {
    match s
    case Required(n, k) => if n in data && HasKind(data[n], k) then Accepted else Rejected(n)
    case OptionalNumber(n) => if n !in data || data[n].JNum? then Accepted else Panicked
  }

  /** Run the steps in order; the first one that does not accept decides. */
  function Check(data: Fields, steps: seq<Step>): (v: Verdict)
    ensures v.Rejected? ==> exists s :: s in steps && s.Required? && s.name == v.field
    ensures v.Panicked? ==> exists s :: s in steps && s.OptionalNumber?
  {
    if steps == [] then Accepted
    else
      var first := StepResult(data, steps[0]);
      if first != Accepted then first else Check(data, steps[1..])
  }

  /** The parameter a validated step contributes to the call. */
  function ParamFor(data: Fields, s: Step): (p: Param)
    requires StepResult(data, s) == Accepted
    ensures s.Required? && s.kind == Number ==> p == PInt(Trunc(data[s.name].n))
    ensures s.Required? && s.kind == Text ==> p == PStr(data[s.name].s)
    ensures s.OptionalNumber? && s.name !in data ==> p == PNullInt(None)
    ensures s.OptionalNumber? && s.name in data ==> p == PNullInt(Some(Trunc(data[s.name].n)))
  {
    match s
    case Required(n, Number) => PInt(Trunc(data[n].n))
    case Required(n, Text) => PStr(data[n].s)
    case OptionalNumber(n) => PNullInt(if n in data then Some(Trunc(data[n].n)) else None)
  }

  /** The positional parameters, one per step of `order`, in that order. */
  function ParamsOf(data: Fields, order: seq<Step>): (ps: seq<Param>)
    requires forall s :: s in order ==> StepResult(data, s) == Accepted
    ensures |ps| == |order|
    ensures forall i :: 0 <= i < |order| ==> ps[i] == ParamFor(data, order[i])
  {
    if order == [] then [] else [ParamFor(data, order[0])] + ParamsOf(data, order[1..])
  }

  /** A write endpoint: its procedure, its checks in the order they run, and
      the order in which the checked fields are passed to the procedure. */
  datatype Endpoint = Endpoint(proc: string, checks: seq<Step>, params: seq<Step>)

  /** Every checked field is forwarded exactly once. */
  predicate WellFormed(ep: Endpoint)
  {
    multiset(ep.params) == multiset(ep.checks)
  }

  /** The behaviour every map-decoding write handler shares: connect, decode,
      run the checks, and only when all of them accept, issue the one call. */
  function Reference(ep: Endpoint, connected: bool, body: Decode<Fields>, exec: DbResult, success: Response): (h: Handled)
    requires WellFormed(ep)
    ensures !connected ==> h == ConnectFailure
    ensures connected && body.DecodeError? ==> h == Handled(BadRequest(body.msg), None)
    ensures h.call.Some? <==> connected && body.Decoded? && Check(body.value, ep.checks) == Accepted
    ensures h.call.Some? ==> h.call.value.proc == ep.proc && |h.call.value.params| == |ep.params|
    ensures h.call.Some? && exec.DbOk? ==> h.resp == success
    ensures h.call.Some? && exec.DbErr? ==> h.resp == ServerError(exec.msg)
    ensures connected && body.Decoded? && Check(body.value, ep.checks).Rejected? ==>
              h == Reject(Check(body.value, ep.checks).field)
    ensures connected && body.Decoded? && Check(body.value, ep.checks).Panicked? ==> h.resp == Panic
  {
    if !connected then ConnectFailure
    else if body.DecodeError? then Handled(BadRequest(body.msg), None)
    else
      match Check(body.value, ep.checks)
      case Rejected(f) => Reject(f)
      case Panicked => Handled(Panic, None)
      case Accepted =>
        CheckAccepts(body.value, ep.checks);
        ForwardedWereChecked(ep);
        Issue(Call(ep.proc, ParamsOf(body.value, ep.params)), exec, success)
  }

  lemma ForwardedWereChecked(ep: Endpoint)
    requires WellFormed(ep)
    ensures forall s :: s in ep.params ==> s in ep.checks
  {
    forall s | s in ep.params ensures s in ep.checks {
      assert s in multiset(ep.params);
    }
  }

  /** All steps accept exactly when the run accepts. */
  lemma {:induction false} CheckAccepts(data: Fields, steps: seq<Step>)
    ensures Check(data, steps) == Accepted <==> forall s :: s in steps ==> StepResult(data, s) == Accepted
  {
    if steps != [] {
      CheckAccepts(data, steps[1..]);
      assert forall s :: s in steps <==> s == steps[0] || s in steps[1..];
    }
  }

  /** The verdict is that of the first step that does not accept. */
  lemma {:induction false} CheckReportsFirstFailure(data: Fields, steps: seq<Step>, i: nat)
    requires i < |steps|
    requires StepResult(data, steps[i]) != Accepted
    requires forall j :: 0 <= j < i ==> StepResult(data, steps[j]) == Accepted
    ensures Check(data, steps) == StepResult(data, steps[i])
  {
    if i > 0 {
      CheckReportsFirstFailure(data, steps[1..], i - 1);
    }
  }

  /** A field that only required steps of kind `k` look at, holding a value
      of another kind, is judged exactly as if it were absent. */
  lemma {:induction false} WrongKindActsAsAbsent(data: Fields, steps: seq<Step>, n: string, k: Kind, v: JsonVal)
    requires forall s :: s in steps && s.name == n ==> s == Required(n, k)
    requires !HasKind(v, k)
    ensures Check(data[n := v], steps) == Check(data - {n}, steps)
  {
    if steps != [] {
      var s := steps[0];
      assert s in steps;
      assert StepResult(data[n := v], s) == StepResult(data - {n}, s);
      WrongKindActsAsAbsent(data, steps[1..], n, k, v);
    }
  }

  /** At endpoint level: a required field of the wrong JSON type gets the
      same response as a missing one, and neither issues a call. */
  lemma WrongKindRejectedAsAbsent(ep: Endpoint, connected: bool, data: Fields, exec: DbResult, success: Response,
                                  n: string, k: Kind, v: JsonVal)
    requires WellFormed(ep)
    requires Required(n, k) in ep.checks
    requires forall s :: s in ep.checks && s.name == n ==> s == Required(n, k)
    requires !HasKind(v, k)
    ensures Reference(ep, connected, Decoded(data[n := v]), exec, success)
         == Reference(ep, connected, Decoded(data - {n}), exec, success)
    ensures Reference(ep, connected, Decoded(data - {n}), exec, success).call.None?
  {
    WrongKindActsAsAbsent(data, ep.checks, n, k, v);
    CheckAccepts(data - {n}, ep.checks);
    assert StepResult(data - {n}, Required(n, k)) != Accepted;
  }

  /** An optional id: absent is forwarded as NULL, a present 0 as the
      integer 0, and the two parameters differ. */
  lemma AbsentIsNullZeroIsZero(data: Fields, n: string)
    ensures ParamFor(data - {n}, OptionalNumber(n)) == PNullInt(None)
    ensures ParamFor(data[n := JNum(0.0)], OptionalNumber(n)) == PNullInt(Some(0))
  {
  }
}
