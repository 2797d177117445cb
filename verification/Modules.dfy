/** The life of one broker module: the request that loaded it and the requests to remove it are kept
    with it, and answered as it reports its status. */
module Modules {

  type Request = nat

  datatype Status = INIT | RUNNING | FINALIZING | EXITED | OTHER(code: int)

  /** A response to a load request; error number 0 is success. */
  datatype Answer = Answer(request: Request, errnum: int)

  /** A module; `present` while it can be looked up.  Requests are pushed on the front of their list and
      popped from there.  `loaded` is the responses sent to load requests, `removed` the remove requests
      that have been answered. */
  datatype Value = Value(
    status: Status,
    errnum: int,
    insmod: seq<Request>,
    rmmod: seq<Request>,
    present: bool,
    loaded: seq<Answer>,
    removed: seq<Request>)

  function InsmodAnswered(v: Value): Value
  {
    if v.insmod == [] then v
    else v.(insmod := v.insmod[1..], loaded := v.loaded + [Answer(v.insmod[0], if v.status.EXITED? then v.errnum else 0)])
  }

  function RmmodAnswered(v: Value): Value
  {
    v.(rmmod := [], removed := v.removed + v.rmmod)
  }

  /** What a change of status from `prev` sets off. */
  function StatusNoted(v: Value, prev: Status): Value
  {
    var v1 := if prev.INIT? && v.status.RUNNING? then InsmodAnswered(v) else v;
    if v1.status.EXITED? then RmmodAnswered(InsmodAnswered(v1)).(present := false) else v1
  }

  function StatusSet(v: Value, s: Status): Value
  {
    if s.INIT? || v.status.EXITED? then v else StatusNoted(v.(status := s), v.status)
  }

  /** A status report from a module that can be looked up. */
  function Reported(v: Value, s: Status, errnum: int): Value
  {
    if !v.present then v else StatusSet(if s.EXITED? then v.(errnum := errnum) else v, s)
  }

  function RemoveAccepted(v: Value, stops: bool): bool
  {
    v.present && stops
  }

  function RemoveRequested(v: Value, r: Request, stops: bool): Value
  {
    if RemoveAccepted(v, stops) then v.(rmmod := [r] + v.rmmod) else v
  }

  /** A module that has just been started, for a request or for the broker itself. */
  function Loaded(request: seq<Request>): Value
  {
    Value(INIT, 0, request, [], true, [], [])
  }

  /* ---- runs ---- */

  /** Destroy is the end of a module that has not reported its exit. */
  datatype Step = Report(status: Status, errnum: int) | Remove(request: Request, stops: bool) | Destroy

  function Next(v: Value, step: Step): Value
  {
    match step
    case Report(s, e) => Reported(v, s, e)
    case Remove(r, stops) => RemoveRequested(v, r, stops)
    case Destroy => if v.present then StatusSet(v, EXITED) else v
  }

  function Run(v: Value, steps: seq<Step>): Value
  {
    if steps == [] then v else
      var k := |steps| - 1;
      Next(Run(v, steps[..k]), steps[k])
  }

  /* ---- what the answers should be, from the steps alone ---- */

  predicate Exits(step: Step)
  {
    step.Destroy? || (step.Report? && step.status.EXITED?)
  }

  predicate Ended(steps: seq<Step>)
  {
    exists i :: 0 <= i < |steps| && Exits(steps[i])
  }

  /** A report that changes the status of a module: any but INIT, and an end. */
  predicate Counts(step: Step)
  {
    step.Destroy? || (step.Report? && !step.status.INIT?)
  }

  predicate Started(steps: seq<Step>)
  {
    exists i :: 0 <= i < |steps| && Counts(steps[i])
  }

  /** The answer to the load request: success at once if RUNNING is the first report, and otherwise
      whatever the module exits with. */
  function LoadAnswer(steps: seq<Step>): seq<int>
  {
    if steps == [] then [] else
      var k := |steps| - 1;
      var before, step := LoadAnswer(steps[..k]), steps[k];
      if before != [] then before
      else if step.Report? && step.status.RUNNING? && !Started(steps[..k]) then [0]
      else if Exits(step) then [if step.Destroy? then 0 else step.errnum]
      else []
  }

  /** The remove requests that were accepted: those made, and passed on to the module, before it ended. */
  function Accepted(steps: seq<Step>): multiset<Request>
  {
    if steps == [] then multiset{} else
      var k := |steps| - 1;
      var before, step := Accepted(steps[..k]), steps[k];
      if step.Remove? && step.stops && !Ended(steps[..k]) then before + multiset{step.request} else before
  }

  function LoadAnswers(request: seq<Request>, errs: seq<int>): seq<Answer>
  {
    if request == [] || errs == [] then [] else [Answer(request[0], errs[0])]
  }

  ghost predicate Inv(request: seq<Request>, steps: seq<Step>, v: Value)
  {
    && v.present == !Ended(steps)
    && (v.present <==> !v.status.EXITED?)
    && (v.status.INIT? <==> !Started(steps))
    && (v.present ==> v.errnum == 0)
    && v.loaded == LoadAnswers(request, LoadAnswer(steps))
    && v.insmod == (if LoadAnswer(steps) == [] then request else [])
    && multiset(v.removed) + multiset(v.rmmod) == Accepted(steps)
    && (!v.present ==> v.insmod == [] && v.rmmod == [] && LoadAnswer(steps) != [])
  }

  lemma HistoryGrows(steps: seq<Step>, step: Step)
    ensures Ended(steps + [step]) == (Ended(steps) || Exits(step))
    ensures Started(steps + [step]) == (Started(steps) || Counts(step))
    ensures (steps + [step])[..|steps|] == steps
  {
    var more := steps + [step];
    assert more[|steps|] == step;
    assert forall i :: 0 <= i < |steps| ==> more[i] == steps[i];
  }

  lemma AnswersGrow(steps: seq<Step>, step: Step)
    ensures var before := LoadAnswer(steps);
      LoadAnswer(steps + [step])
        == if before != [] then before
           else if step.Report? && step.status.RUNNING? && !Started(steps) then [0]
           else if Exits(step) then [ExitError(step)]
           else []
    ensures Accepted(steps + [step])
         == Accepted(steps) + (if step.Remove? && step.stops && !Ended(steps) then multiset{step.request} else multiset{})
  {
    assert (steps + [step])[..|steps|] == steps;
  }

  /** A module that ends has answered everything. */
  lemma ExitValue(v: Value, step: Step)
    requires v.present && !v.status.EXITED? && v.errnum == 0 && |v.insmod| <= 1 && Exits(step)
    ensures Next(v, step)
         == Value(EXITED, ExitError(step), [], [], false,
                  if v.insmod == [] then v.loaded else v.loaded + [Answer(v.insmod[0], ExitError(step))],
                  v.removed + v.rmmod)
  {
  }

  lemma ExitKeeps(request: seq<Request>, steps: seq<Step>, v: Value, step: Step)
    requires |request| <= 1 && Inv(request, steps, v) && v.present && Exits(step)
    ensures Inv(request, steps + [step], Next(v, step))
  {
    HistoryGrows(steps, step);
    AnswersGrow(steps, step);
    ExitValue(v, step);
    assert multiset(v.removed + v.rmmod) == multiset(v.removed) + multiset(v.rmmod);
  }

  lemma ReportKeeps(request: seq<Request>, steps: seq<Step>, v: Value, step: Step)
    requires |request| <= 1 && Inv(request, steps, v) && v.present && step.Report? && !Exits(step)
    ensures Inv(request, steps + [step], Next(v, step))
  {
    HistoryGrows(steps, step);
    AnswersGrow(steps, step);
  }

  lemma NextKeeps(request: seq<Request>, steps: seq<Step>, v: Value, step: Step)
    requires |request| <= 1 && Inv(request, steps, v)
    ensures Inv(request, steps + [step], Next(v, step))
  {
    HistoryGrows(steps, step);
    AnswersGrow(steps, step);
    if v.present && Exits(step) {
      ExitKeeps(request, steps, v, step);
    } else if v.present && step.Report? {
      ReportKeeps(request, steps, v, step);
    }
  }

  lemma LastKeeps(request: seq<Request>, steps: seq<Step>, before: seq<Step>, v: Value, step: Step)
    requires |request| <= 1 && Inv(request, before, v) && steps == before + [step]
    ensures Inv(request, steps, Next(v, step))
  {
    NextKeeps(request, before, v, step);
  }

  lemma {:induction false} InvHolds(request: seq<Request>, steps: seq<Step>)
    requires |request| <= 1
    ensures Inv(request, steps, Run(Loaded(request), steps))
  {
    if steps != [] {
      var k := |steps| - 1;
      InvHolds(request, steps[..k]);
      assert steps == steps[..k] + [steps[k]];
      LastKeeps(request, steps, steps[..k], Run(Loaded(request), steps[..k]), steps[k]);
    }
  }

  lemma {:induction false} NothingBeforeStart(steps: seq<Step>)
    requires !Started(steps)
    ensures LoadAnswer(steps) == []
  {
    if steps != [] {
      var k := |steps| - 1;
      assert !Counts(steps[k]);
      assert forall i :: 0 <= i < k ==> steps[..k][i] == steps[i];
      NothingBeforeStart(steps[..k]);
    }
  }

  /** Step `i` is the first to change the status of the module, and `e` the one that ends it, if any. */
  ghost predicate Milestones(steps: seq<Step>, i: nat, e: nat)
  {
    && i < |steps| && Counts(steps[i]) && (forall j :: 0 <= j < i ==> !Counts(steps[j]))
    && i <= e <= |steps| && (forall j :: 0 <= j < e ==> !Exits(steps[j]))
    && (e < |steps| ==> Exits(steps[e]))
  }

  function ExitError(step: Step): int
  {
    if step.Report? then step.errnum else 0
  }

  lemma {:induction false} FirstReportDecides(steps: seq<Step>, i: nat, e: nat)
    requires Milestones(steps, i, e)
    ensures LoadAnswer(steps) == if steps[i].Report? && steps[i].status.RUNNING? then [0]
                                 else if e < |steps| then [ExitError(steps[e])] else []
  {
    var k := |steps| - 1;
    var before := steps[..k];
    assert forall j :: 0 <= j < k ==> before[j] == steps[j];
    if i == k {
      NothingBeforeStart(before);
    } else {
      assert Counts(before[i]);
      FirstReportDecides(before, i, if e < k then e else k);
    }
  }

  /** The load request is answered as the reports say it should be, and once the module has ended it
      has been answered exactly once. */
  lemma LoadIsAnsweredOnce(r: Request, steps: seq<Step>)
    ensures var v := Run(Loaded([r]), steps);
            v.loaded == if LoadAnswer(steps) == [] then [] else [Answer(r, LoadAnswer(steps)[0])]
    ensures Ended(steps) ==> |Run(Loaded([r]), steps).loaded| == 1
  {
    InvHolds([r], steps);
  }

  /** It succeeds if the first change of status is from INIT to RUNNING, whatever comes later, and
      otherwise gets the error number the module exits with. */
  lemma LoadResultIsDecided(r: Request, steps: seq<Step>, i: nat, e: nat)
    requires Milestones(steps, i, e)
    ensures Run(Loaded([r]), steps).loaded
         == if steps[i].Report? && steps[i].status.RUNNING? then [Answer(r, 0)]
            else if e < |steps| then [Answer(r, ExitError(steps[e]))] else []
  {
    LoadIsAnsweredOnce(r, steps);
    FirstReportDecides(steps, i, e);
  }

  /** Every remove request that was accepted is pending or answered, never both and never twice; and
      once the module has ended, none is pending. */
  lemma RemovesAreAnsweredOnce(request: seq<Request>, steps: seq<Step>)
    requires |request| <= 1
    ensures var v := Run(Loaded(request), steps);
            && multiset(v.removed) + multiset(v.rmmod) == Accepted(steps)
            && (Ended(steps) ==> multiset(v.removed) == Accepted(steps))
  {
    InvHolds(request, steps);
  }

  /** Nothing follows the end of a module. */
  lemma {:induction false} NothingAfterTheEnd(request: seq<Request>, steps: seq<Step>, more: seq<Step>)
    requires |request| <= 1 && Ended(steps)
    ensures Run(Loaded(request), steps + more) == Run(Loaded(request), steps)
  {
    InvHolds(request, steps);
    if more == [] {
      assert steps + more == steps;
    } else {
      var k := |more| - 1;
      NothingAfterTheEnd(request, steps, more[..k]);
      assert (steps + more)[..|steps| + k] == steps + more[..k];
    }
  }

  /* ---- the object ---- */

  /** `request` is the load request, if any, and `steps` what has happened to the module so far. */
  class Module {
    var status: Status
    var errnum: int
    var insmod: seq<Request>
    var rmmod: seq<Request>
    var present: bool
    var loaded: seq<Answer>
    var removed: seq<Request>
    ghost var request: seq<Request>
    ghost var steps: seq<Step>

    ghost function Val(): Value
      reads this
    {
      Value(status, errnum, insmod, rmmod, present, loaded, removed)
    }

    /** The module is where its steps have brought it, so that every request is accounted for. */
    ghost predicate Valid()
      reads this
    {
      |request| <= 1 && Val() == Run(Loaded(request), steps) && Inv(request, steps, Val())
    }

    constructor ()
      ensures Valid() && request == [] && steps == []
    {
      status, errnum, insmod, rmmod, present, loaded, removed := INIT, 0, [], [], true, [], [];
      request, steps := [], [];
      new;
      InvHolds([], []);
    }

    /** There can be only one request to load a module. */
    method PushInsmod(r: Request) returns (ok: bool)
      requires Valid() && steps == []
      modifies this`insmod, this`request
      ensures ok <==> old(request) == []
      ensures Valid() && request == if ok then [r] else old(request)
    {
      if |insmod| > 0 {
        return false;
      }
      insmod := [r] + insmod;
      request := [r];
      InvHolds([r], []);
      return true;
    }

    /** Answers the load request if it is pending; none is pending then. */
    method InsmodRespond()
      modifies this`insmod, this`loaded
      ensures Val() == InsmodAnswered(old(Val()))
      ensures |loaded| + |insmod| == old(|loaded| + |insmod|) && (old(|insmod|) <= 1 ==> insmod == [])
    {
      if insmod == [] {
        return;
      }
      var msg := insmod[0];
      insmod := insmod[1..];
      var error := 0;
      if status == EXITED {
        error := errnum;
      }
      loaded := loaded + [Answer(msg, error)];
    }

    method RmmodRespond()
      modifies this`rmmod, this`removed
      ensures Val() == RmmodAnswered(old(Val()))
    {
      while rmmod != []
        invariant removed + rmmod == old(removed) + old(rmmod)
        decreases |rmmod|
      {
        var msg := rmmod[0];
        rmmod := rmmod[1..];
        removed := removed + [msg];
      }
    }

    method StatusCallback(prev: Status)
      modifies this`insmod, this`loaded, this`rmmod, this`removed, this`present
      ensures Val() == StatusNoted(old(Val()), prev)
    {
      if prev == INIT && status == RUNNING {
        InsmodRespond();
      }
      if status == EXITED {
        InsmodRespond();
        RmmodRespond();
        present := false;
      }
    }

    /** A module never goes back to INIT, and nothing changes once it has exited. */
    method SetStatus(s: Status)
      modifies this`status, this`insmod, this`loaded, this`rmmod, this`removed, this`present
      ensures Val() == StatusSet(old(Val()), s)
      ensures status == INIT ==> old(status) == INIT
      ensures old(status) == EXITED ==> Val() == old(Val())
      ensures s == EXITED && old(status) != EXITED && old(|insmod|) <= 1 ==> insmod == [] && rmmod == [] && !present
    {
      if s == INIT || status == EXITED {
        return;
      }
      var prev := status;
      status := s;
      StatusCallback(prev);
    }

    /** A report counts only from a module that can be looked up, and keeps every request accounted for. */
    method StatusReport(s: Status, e: int) returns (found: bool)
      requires Valid()
      modifies this
      ensures found == !Ended(old(steps))
      ensures Valid() && request == old(request) && steps == old(steps) + [Report(s, e)]
    {
      found := present;
      if found {
        if s == EXITED {
          errnum := e;
        }
        SetStatus(s);
      }
      Happened(Report(s, e), old(Val()));
    }

    /** A remove request is accepted exactly while the module has not ended and can be told to stop. */
    method Unload(r: Request, stops: bool) returns (accepted: bool)
      requires Valid()
      modifies this`rmmod, this`steps
      ensures accepted <==> !Ended(old(steps)) && stops
      ensures Valid() && steps == old(steps) + [Remove(r, stops)]
    {
      accepted := present && stops;
      if accepted {
        rmmod := [r] + rmmod;
      }
      Happened(Remove(r, stops), old(Val()));
    }

    /** The module is destroyed; one that has not reported its exit ends here. */
    method Destroyed()
      requires Valid()
      modifies this
      ensures Valid() && request == old(request) && steps == old(steps) + [Destroy]
    {
      if present {
        SetStatus(EXITED);
      }
      Happened(Destroy, old(Val()));
    }

    /** Notes a step that has been carried out. */
    ghost method Happened(step: Step, v: Value)
      requires |request| <= 1 && v == Run(Loaded(request), steps) && Val() == Next(v, step)
      modifies this`steps
      ensures Valid() && steps == old(steps) + [step]
    {
      InvHolds(request, steps + [step]);
      assert (steps + [step])[..|steps|] == steps;
      steps := steps + [step];
    }
  }

  /** Loads a module for a request: it is found, created, registered and started, and then answers the
      request itself in time; otherwise the request is answered with an error at once. */
  method Load(r: Request, found: bool, creates: bool, registers: bool, starts: bool)
    returns (p: Module?, refused: seq<Request>)
    ensures p != null <==> found && creates && registers && starts
    ensures p != null ==> fresh(p) && p.Valid() && p.request == [r] && p.steps == [] && refused == []
    ensures p == null ==> refused == [r]
  {
    if !found || !creates {
      return null, [r];
    }
    p := new Module();
    if !registers {
      return null, [r];
    }
    var pushed := p.PushInsmod(r);
    if !pushed || !starts {
      return null, [r];
    }
    return p, [];
  }
}
