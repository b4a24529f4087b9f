/** Screening of the tool calls the model proposes. */
module RcaPlan {
  import opened Prelude

  /**
   `screen` is the registry's verdict on one proposed call: the normalised call when the tool is
   registered, available and its arguments are valid.
   */
  type Screen = string -> Option<string>

  /** The usable calls in order, each once, at most `maxCalls` of them. */
  function AcceptedCalls(calls: seq<string>, screen: Screen, maxCalls: int): (r: seq<string>) {
    if calls == [] then [] else
    var accepted, last := AcceptedCalls(calls[..|calls| - 1], screen, maxCalls), calls[|calls| - 1];
    if |accepted| >= maxCalls then accepted
    else match screen(last)
      case None => accepted
      case Some(call) => if call in accepted then accepted else accepted + [call]
  }

  predicate Distinct(xs: seq<string>) {
    forall i, j | 0 <= i < j < |xs| :: xs[i] != xs[j]
  }

  predicate IsUsable(calls: seq<string>, screen: Screen, call: string) {
    exists i :: 0 <= i < |calls| && screen(calls[i]) == Some(call)
  }

  /**
   The gate lets through only usable calls, none twice, never more than asked for, and leaves out a
   usable call only when it is full.
   */
  lemma {:induction false} AcceptedCallsMeaning(calls: seq<string>, screen: Screen, maxCalls: int)
    ensures var accepted := AcceptedCalls(calls, screen, maxCalls);
      && (accepted == [] || |accepted| <= maxCalls) && Distinct(accepted)
      && (forall c | c in accepted :: IsUsable(calls, screen, c))
      && (|accepted| < maxCalls ==> forall i | 0 <= i < |calls| && screen(calls[i]).Some? ::
        screen(calls[i]).value in accepted)
  {
    if calls != [] {
      var init := calls[..|calls| - 1];
      AcceptedCallsMeaning(init, screen, maxCalls);
      var before, accepted := AcceptedCalls(init, screen, maxCalls), AcceptedCalls(calls, screen, maxCalls);
      forall c | c in accepted ensures IsUsable(calls, screen, c) {
        if c in before {
          var i :| 0 <= i < |init| && screen(init[i]) == Some(c);
          assert screen(calls[i]) == Some(c);
        } else {
          assert screen(calls[|calls| - 1]) == Some(c);
        }
      }
    }
  }

  /** Why a call was turned away. */
  datatype Rejection = PlanFull(call: string) | NotUsable(call: string) | Repeated(call: string)

  function RejectedCalls(calls: seq<string>, screen: Screen, maxCalls: int): (r: seq<Rejection>) {
    if calls == [] then [] else
    var init, last := calls[..|calls| - 1], calls[|calls| - 1];
    var accepted := AcceptedCalls(init, screen, maxCalls);
    RejectedCalls(init, screen, maxCalls)
    + if |accepted| >= maxCalls then [PlanFull(last)]
      else match screen(last)
        case None => [NotUsable(last)]
        case Some(call) => if call in accepted then [Repeated(last)] else []
  }

  /** The calls accepted, and those turned away with the first reason that applies. */
  method ValidatePlan(calls: seq<string>, screen: Screen, maxCalls: int)
    returns (accepted: seq<string>, rejected: seq<Rejection>)
    ensures accepted == AcceptedCalls(calls, screen, maxCalls)
    ensures rejected == RejectedCalls(calls, screen, maxCalls)
    ensures |accepted| + |rejected| == |calls|
  {
    accepted, rejected := [], [];
    var seen: set<string> := {};
    for i := 0 to |calls|
      invariant accepted == AcceptedCalls(calls[..i], screen, maxCalls)
      invariant rejected == RejectedCalls(calls[..i], screen, maxCalls)
      invariant |accepted| + |rejected| == i
      invariant seen == SetOf(accepted)
    {
      assert calls[..i + 1][..i] == calls[..i];
      if |accepted| >= maxCalls {
        rejected := rejected + [PlanFull(calls[i])];
        continue;
      }
      var verdict := screen(calls[i]);
      if verdict == None {
        rejected := rejected + [NotUsable(calls[i])];
        continue;
      }
      if verdict.value in seen {
        rejected := rejected + [Repeated(calls[i])];
        continue;
      }
      seen := seen + {verdict.value};
      accepted := accepted + [verdict.value];
    }
    assert calls[..|calls|] == calls;
  }

  /** A plan of distinct usable calls that fits is accepted as it is. */
  lemma {:induction false} DistinctCallsAccepted(calls: seq<string>, screen: Screen, maxCalls: int)
    requires Distinct(calls) && |calls| <= maxCalls
    requires forall c | c in calls :: screen(c) == Some(c)
    ensures AcceptedCalls(calls, screen, maxCalls) == calls
  {
    if calls != [] {
      var init, last := calls[..|calls| - 1], calls[|calls| - 1];
      assert calls == init + [last];
      DistinctCallsAccepted(init, screen, maxCalls);
    }
  }
}
