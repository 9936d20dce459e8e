/** The session's open Codex request, and those it closed. */
module CodexStreams {
  import opened Options
  import opened Session
  import Spec = Session

  class OpenRequests {
    var stream: Option<StreamId>
    var served: set<StreamId>
    var finished: set<StreamId>
    var switching: map<StreamId, seq<Item>>
    var outputTokens: int
    var reasoningTokens: int
    var reports: seq<Report>
    var failures: seq<StreamId>

    ghost function View(): Streams
      reads this
    {
      Streams(stream, served, finished, switching, outputTokens, reasoningTokens, reports, failures)
    }

    constructor ()
      ensures View() == NO_STREAMS
    {
      stream, served, finished, switching := None, {}, {}, map[];
      outputTokens, reasoningTokens, reports, failures := 0, 0, [], [];
    }

    method Complete()
      modifies `stream, `finished, `outputTokens, `reasoningTokens, `reports
      ensures View() == Spec.Complete(old(View()))
    {
      if stream == None {
        return;
      }
      if stream.value !in finished {
        reports := reports + [Report(stream.value, outputTokens, reasoningTokens)];
      }
      finished := finished + {stream.value};
      stream, outputTokens, reasoningTokens := None, 0, 0;
    }

    method Fail()
      modifies `stream, `finished, `outputTokens, `reasoningTokens, `failures
      ensures View() == Spec.Fail(old(View()))
    {
      if stream == None {
        return;
      }
      if stream.value !in finished {
        failures := failures + [stream.value];
      }
      finished := finished + {stream.value};
      stream, outputTokens, reasoningTokens := None, 0, 0;
    }

    method OpenStream(st: StreamId)
      modifies `stream, `finished, `served, `outputTokens, `reasoningTokens
      ensures View() == Spec.OpenStream(old(View()), st)
    {
      if stream.Some? {
        finished := finished + {stream.value};
      }
      stream, served := Some(st), served + {st};
      outputTokens, reasoningTokens := 0, 0;
    }

    method CountTokens(output: int, reasoning: int)
      modifies `outputTokens, `reasoningTokens
      ensures View() == old(View()).(output := old(outputTokens) + output, reasoning := old(reasoningTokens) + reasoning)
    {
      outputTokens, reasoningTokens := outputTokens + output, reasoningTokens + reasoning;
    }
  }
}
