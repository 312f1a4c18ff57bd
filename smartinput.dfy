/** The command box of SmartInput.tsx. Submitting is split at its `await`:
    `Submit` checks the input and starts loading, `Resolve` handles what the
    parser returned. `Handle` runs both around `Advisor.ParseAIInput`. The
    alerts are recorded in a list and `onCommand` in the list `dispatched`. */
module Command {
  import opened Seqs
  import opened Text
  import opened Types
  import Advisor

  datatype Alert = ConnectionError | NotUnderstood

  /** The three ways a parse result is handled. */
  datatype Outcome = Failed | Unclear | Run(command: CommandResult)

  /** null is a connection error, an UNKNOWN action is not understood, and any
      other action is run. */
  function Dispatch(result: Option<CommandResult>): (r: Outcome)
    ensures r == Failed <==> result.None?
    ensures r == Unclear <==> result.Some? && result.value.action == UnknownAction
    ensures r.Run? <==> result.Some? && result.value.action != UnknownAction
    ensures r.Run? ==> r.command == result.value
  {
    match result
    case None => Failed
    case Some(c) => if c.action == UnknownAction then Unclear else Run(c)
  }

  /** A result that is run and on which `onCommand` throws. */
  predicate Stuck(result: Option<CommandResult>)
  {
    Dispatch(result).Run? && Unhandled(result.value)
  }

  class CommandBox {
    var input: string
    var loading: bool
    /** The results handed to `onCommand`, in order. */
    var dispatched: seq<CommandResult>
    var alerts: seq<Alert>

    constructor ()
      ensures input == "" && !loading && dispatched == [] && alerts == []
    {
      input := "";
      loading := false;
      dispatched := [];
      alerts := [];
    }

    /** The part of `handleSubmit` before the `await`: blank input returns at
        once with nothing changed; otherwise loading starts and the input is
        sent. The input and the button are disabled while loading, so a
        submission never starts during another. */
    method Submit() returns (sent: Option<string>)
      requires !loading
      modifies this
      ensures AllSpace(old(input)) ==> sent.None? && unchanged(this)
      ensures !AllSpace(old(input)) ==>
                sent == Some(old(input)) && loading &&
                input == old(input) && dispatched == old(dispatched) && alerts == old(alerts)
    {
      TrimEmpty(input);
      if Trim(input) == "" {
        return None;
      }
      loading := true;
      sent := Some(input);
    }

    /** The part after the `await`: run the command once and clear the input,
        or raise one alert and keep the input; loading then ends. When
        `onCommand` throws on the command, the rest of the handler never
        runs: the input is kept and loading never ends. It runs only after
        `Submit` has started loading. */
    method Resolve(result: Option<CommandResult>)
      requires loading
      modifies this
      ensures loading <==> Stuck(result)
      ensures Dispatch(result).Run? ==>
                dispatched == old(dispatched) + [result.value] && alerts == old(alerts) &&
                input == if Unhandled(result.value) then old(input) else ""
      ensures Dispatch(result) == Failed ==>
                dispatched == old(dispatched) && input == old(input) && alerts == old(alerts) + [ConnectionError]
      ensures Dispatch(result) == Unclear ==>
                dispatched == old(dispatched) && input == old(input) && alerts == old(alerts) + [NotUnderstood]
    {
      match Dispatch(result) {
        case Failed =>
          alerts := alerts + [ConnectionError];
        case Run(c) =>
          dispatched := dispatched + [c];
          if Unhandled(c) {
            return;
          }
          input := "";
        case Unclear =>
          alerts := alerts + [NotUnderstood];
      }
      loading := false;
    }

    /** The whole handler with the reply of the model given: without a key, or
        when the request fails, nothing is dispatched and a connection error is
        shown; a command is dispatched only when the parsed reply names an
        action other than UNKNOWN, and the box stays loading only when
        `onCommand` throws on it. */
    method Handle(apiKey: string, categories: seq<string>, goals: seq<SavingGoal>,
                  reply: Advisor.Reply, decode: string -> Option<CommandResult>)
      requires !loading
      modifies this
      ensures loading <==>
                !AllSpace(old(input)) && Stuck(Advisor.ParseAIInput(apiKey, old(input), categories, goals, reply, decode).result)
      ensures AllSpace(old(input)) ==> dispatched == old(dispatched) && alerts == old(alerts) && input == old(input)
      ensures !AllSpace(old(input)) && (apiKey == "" || reply.Failed?) ==>
                dispatched == old(dispatched) && input == old(input) && alerts == old(alerts) + [ConnectionError]
      ensures |dispatched| > |old(dispatched)| ==>
                !AllSpace(old(input)) && apiKey != "" && reply.Answered? &&
                Advisor.ParseAIInput(apiKey, old(input), categories, goals, reply, decode).result.Some? &&
                var c := Advisor.ParseAIInput(apiKey, old(input), categories, goals, reply, decode).result.value;
                dispatched == old(dispatched) + [c] && input == if Unhandled(c) then old(input) else ""
      ensures |dispatched| <= |old(dispatched)| + 1
    {
      var sent := Submit();
      if sent.Some? {
        var outcome := Advisor.ParseAIInput(apiKey, sent.value, categories, goals, reply, decode);
        Resolve(outcome.result);
      }
    }
  }
}
