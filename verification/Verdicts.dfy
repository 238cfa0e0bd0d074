/** How the end of a turn is judged (agentFailure and the agent_end / agent_settled branches of
    mapWorkerEvent in src/worker/worker-pool.ts).  Pi reports the end of a run, may retry, and
    finally settles; only settling ends the turn, and the last report before it decides. */
module Verdicts {
  import opened Common
  import opened Events

  datatype Failure = Failure(message: string, stopReason: string)

  /** What an agent_end report says: the turn it belongs to, and whether the run failed. */
  datatype Outcome = Outcome(turn: Option<string>, failure: Option<Failure>)

  /** The stop reason of a message, if it is one that means failure. */
  function FailingReason(message: Json): Option<string> {
    if message.Record? && "stopReason" in message.fields
       && (message.fields["stopReason"] == Text("error") || message.fields["stopReason"] == Text("aborted"))
    then Some(message.fields["stopReason"].s)
    else None
  }

  function FailureOf(message: Json, reason: string): Failure {
    if message.Record? && "errorMessage" in message.fields && message.fields["errorMessage"].Text?
    then Failure(message.fields["errorMessage"].s, reason)
    else Failure("Pi turn ended with stopReason " + reason, reason)
  }

  /** The failure of a run: that of its first message which stopped badly. */
  function AgentFailure(messages: seq<Json>): (r: Option<Failure>)
    ensures r == None <==> forall i :: 0 <= i < |messages| ==> FailingReason(messages[i]) == None
    ensures r.Some? ==> exists i :: 0 <= i < |messages| && IsFirstFailure(messages, i)
                                    && r.value == FailureOf(messages[i], FailingReason(messages[i]).value)
  {
    if messages == [] then None
    else if FailingReason(messages[0]).Some? then Some(FailureOf(messages[0], FailingReason(messages[0]).value))
    else
      var rest := messages[1..];
      var r := AgentFailure(rest);
      assert forall i :: 0 <= i < |rest| ==> rest[i] == messages[i + 1];
      assert forall i :: 0 <= i < |rest| && IsFirstFailure(rest, i) ==> IsFirstFailure(messages, i + 1);
      r
  }

  /** On the messages themselves: a run has failed exactly if one of them is a record that stopped with
      an error or was aborted; the first such message gives the reason, and the text if it has one. */
  lemma AgentFailureMeans(messages: seq<Json>, k: nat)
    requires k < |messages|
    requires messages[k].Record? && "stopReason" in messages[k].fields
             && (messages[k].fields["stopReason"] == Text("error") || messages[k].fields["stopReason"] == Text("aborted"))
    requires forall i :: 0 <= i < k ==>
               !(messages[i].Record? && "stopReason" in messages[i].fields
                 && (messages[i].fields["stopReason"] == Text("error") || messages[i].fields["stopReason"] == Text("aborted")))
    ensures var reason := messages[k].fields["stopReason"].s;
      AgentFailure(messages) == Some(Failure(
        if "errorMessage" in messages[k].fields && messages[k].fields["errorMessage"].Text?
        then messages[k].fields["errorMessage"].s else "Pi turn ended with stopReason " + reason,
        reason))
  {
    forall i | 0 <= i <= k ensures FailingReason(messages[i]).Some? <==> i == k {
      ReasonMeans(messages[i]);
    }
    ReasonMeans(messages[k]);
    hide FailingReason, FailureOf, AgentFailure;
    assert AgentFailure(messages).Some?;
    var i :| 0 <= i < |messages| && IsFirstFailure(messages, i)
             && AgentFailure(messages).value == FailureOf(messages[i], FailingReason(messages[i]).value);
    assert i == k;
  }

  lemma ReasonMeans(m: Json)
    ensures FailingReason(m).Some? <==>
      m.Record? && "stopReason" in m.fields && (m.fields["stopReason"] == Text("error") || m.fields["stopReason"] == Text("aborted"))
    ensures FailingReason(m).Some? ==> FailingReason(m).value == m.fields["stopReason"].s
    ensures m.Record? ==> forall reason: string :: FailureOf(m, reason) == Failure(
      if "errorMessage" in m.fields && m.fields["errorMessage"].Text?
      then m.fields["errorMessage"].s else "Pi turn ended with stopReason " + reason,
      reason)
  {
  }

  lemma NoFailureMeans(messages: seq<Json>)
    ensures AgentFailure(messages) == None <==>
      forall m <- messages ::
        !(m.Record? && "stopReason" in m.fields && (m.fields["stopReason"] == Text("error") || m.fields["stopReason"] == Text("aborted")))
  {
    assert forall m <- messages :: FailingReason(m) == None <==>
        !(m.Record? && "stopReason" in m.fields && (m.fields["stopReason"] == Text("error") || m.fields["stopReason"] == Text("aborted")));
  }

  predicate IsFirstFailure(messages: seq<Json>, i: nat)
    requires i < |messages|
  {
    FailingReason(messages[i]).Some? && forall j :: 0 <= j < i ==> FailingReason(messages[j]) == None
  }

  /** What one worker has reported so far: what the pool keeps about it, and its history. */
  class RunMonitor {
    var pending: Option<Outcome>
    /** The agent_end reports since the last settlement. */
    ghost var reports: seq<Outcome>

    ghost predicate Valid()
      reads this
    {
      pending == if reports == [] then None else Some(reports[|reports| - 1])
    }

    constructor ()
      ensures Valid() && reports == []
    {
      pending, reports := None, [];
    }

    method AgentEnd(activeTurn: Option<string>, messages: seq<Json>)
      requires Valid()
      modifies this
      ensures Valid() && reports == old(reports) + [Outcome(activeTurn, AgentFailure(messages))]
    {
      pending := Some(Outcome(activeTurn, AgentFailure(messages)));
      reports := reports + [Outcome(activeTurn, AgentFailure(messages))];
    }

    /** Exactly one of four verdicts, and what is pending is forgotten. */
    method AgentSettled(activeTurn: Option<string>, aborting: Option<string>)
      returns (kind: EventType, failure: Option<Failure>, stillAborting: Option<string>)
      requires Valid()
      modifies this
      ensures Valid() && reports == []
      ensures kind == ThreadUpdated <==> activeTurn == None
      ensures kind == TurnAborted <==> activeTurn.Some? && aborting == activeTurn
      ensures kind == TurnFailed <==>
                && activeTurn.Some? && aborting != activeTurn && old(reports) != []
                && old(reports)[|old(reports)| - 1].turn == activeTurn && old(reports)[|old(reports)| - 1].failure.Some?
      ensures kind == TurnFailed || kind == TurnAborted || kind == TurnCompleted || kind == ThreadUpdated
      ensures IsTerminalType(kind) <==> activeTurn.Some?
      ensures kind == TurnFailed ==> failure == old(reports)[|old(reports)| - 1].failure && failure.Some?
      ensures stillAborting == if kind == TurnAborted then None else aborting
    {
      var outcome := if pending.Some? && pending.value.turn == activeTurn then pending else None;
      pending, reports := None, [];
      kind, failure, stillAborting := TurnCompleted, None, aborting;
      if activeTurn == None {
        kind := ThreadUpdated;
      } else if aborting == activeTurn {
        kind, stillAborting := TurnAborted, None;
      } else if outcome.Some? && outcome.value.failure.Some? {
        kind, failure := TurnFailed, outcome.value.failure;
      }
    }
  }
}
