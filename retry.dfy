/**
 * The bounded retry around the embedding service. Each attempt posts the
 * text and gets back one `Response`; a step function decides from it whether
 * the loop ends (with or without a vector) or tries again. The service is an
 * oracle `answer`: `answer(k)` is what attempt `k` (counted from 0) receives.
 */
module Retry {
  import opened Base
  import opened Text

  /** A decoded JSON value. */
  datatype Json = JNumber(x: real) | JString(s: Str) | JArray(elems: seq<Json>) | JOther

  /** What one HTTP attempt produced: the transport raised, or a reply with a
      status and a body that is `None` when it does not decode as JSON. */
  datatype Response = Raised | Reply(status: int, body: Option<Json>)

  /** The decision taken after one attempt. */
  datatype Step = Finish(vector: Option<seq<Json>>) | Again

  /** The vector obtained (if any) and how many attempts were made. */
  datatype Outcome = Outcome(vector: Option<seq<Json>>, attempts: nat)

  const MaxAttempts: nat := 3
  const StatusOk: int := 200
  const StatusWarmingUp: int := 503

  predicate IsWarmingUp(r: Response)
  {
    r.Reply? && r.status == StatusWarmingUp
  }

  /** The loop from attempt `k` on. */
  function RunFrom(step: Response -> Step, answer: nat -> Response, k: nat): (o: Outcome)
    requires k <= MaxAttempts
    ensures k <= o.attempts <= MaxAttempts
    decreases MaxAttempts - k
  {
    if k == MaxAttempts then Outcome(None, k)
    else match step(answer(k))
      case Finish(v) => Outcome(v, k + 1)
      case Again => RunFrom(step, answer, k + 1)
  }

  /** Every attempt but the last asked to go again; a vector comes only from
      the last attempt's answer; fewer than three attempts means the last
      one ended the loop. */
  lemma {:induction false} RunFromTrace(step: Response -> Step, answer: nat -> Response, k: nat)
    requires k < MaxAttempts
    decreases MaxAttempts - k
    ensures var o := RunFrom(step, answer, k);
      && k < o.attempts
      && (forall j :: k <= j < o.attempts - 1 ==> step(answer(j)) == Again)
      && (o.attempts < MaxAttempts || step(answer(MaxAttempts - 1)).Finish? ==>
            step(answer(o.attempts - 1)) == Finish(o.vector))
      && (o.vector.Some? ==> step(answer(o.attempts - 1)) == Finish(o.vector))
  {
    if step(answer(k)).Again? && k + 1 < MaxAttempts {
      RunFromTrace(step, answer, k + 1);
    }
  }

  /** What `get_embedding` in backend/main.py does with one answer: a
      decodable list body on 200 ends the loop with its vector (the inner
      list of a batch of one, otherwise the list itself); 503 goes again;
      anything else, including a 200 whose body is not a list or does not
      decode, ends the loop without a vector. */
  function GatewayStep(r: Response): Step
  {
    match r
    case Raised => Finish(None)
    case Reply(status, body) =>
      if status == StatusOk && body.None? then Finish(None)
      else if status == StatusOk && body.value.JArray? then
        var data := body.value.elems;
        Finish(Some(if |data| > 0 && data[0].JArray? then data[0].elems else data))
      else if status == StatusWarmingUp then Again
      else Finish(None)
  }

  /** What the embedding loop of upload_csv.py does with one answer. It
      differs from `GatewayStep` in one case: an empty list body raises when
      its first element is read, which ends the loop without a vector. */
  function UploadStep(r: Response): Step
  {
    match r
    case Raised => Finish(None)
    case Reply(status, body) =>
      if status == StatusOk then
        if body.Some? && body.value.JArray? && |body.value.elems| > 0 then
          var data := body.value.elems;
          Finish(Some(if data[0].JArray? then data[0].elems else data))
        else Finish(None)
      else if status == StatusWarmingUp then Again
      else Finish(None)
  }

  /** In both loops only a 503 reply leads to another attempt. */
  lemma OnlyWarmingUpRetries(r: Response)
    ensures GatewayStep(r) == Again <==> IsWarmingUp(r)
    ensures UploadStep(r) == Again <==> IsWarmingUp(r)
  {
  }

  /** Run `step` from the first attempt, as both loops do. */
  function Run(step: Response -> Step, answer: nat -> Response): (o: Outcome)
    ensures o.attempts <= MaxAttempts
  {
    RunFrom(step, answer, 0)
  }

  /** A run of either loop: every attempt but the last received a 503, and
      a vector comes from a 200 reply whose body is a JSON list. */
  lemma RetryPolicy(upload: bool, answer: nat -> Response)
    ensures var o := Run(if upload then UploadStep else GatewayStep, answer);
      && (forall j :: 0 <= j < o.attempts - 1 ==> IsWarmingUp(answer(j)))
      && (o.vector.Some? ==>
            var last := answer(o.attempts - 1);
            last.Reply? && last.status == StatusOk && last.body.Some? && last.body.value.JArray?)
  {
    var step := if upload then UploadStep else GatewayStep;
    RunFromTrace(step, answer, 0);
    var o := Run(step, answer);
    forall j | 0 <= j < o.attempts - 1
      ensures IsWarmingUp(answer(j))
    {
      OnlyWarmingUpRetries(answer(j));
    }
  }
}
