/**
 * The life of one POST /process request after the engine has been invoked: the
 * engine emits `start`, `end` and `error`, and the handlers registered for them
 * answer the waiting client.
 */
module JobLifecycle {
  import opened Wrappers
  import opened Records
  import opened Transform

  datatype EngineEvent = Start(commandLine: string) | End | Error(message: string) {
    /** `end` and `error` finish the job; `start` only reports the command line. */
    predicate IsTerminal() {
      !Start?
    }
  }

  /** Running until a terminal event has arrived; then the outcome of the first one. */
  datatype Phase = Running | Succeeded | Failed

  function Outcome(e: EngineEvent): Phase
    requires e.IsTerminal()
  {
    if e.End? then Succeeded else Failed
  }

  /** The response the handler for a terminal event sends. */
  function Reply(e: EngineEvent, outputPath: string): Response
    requires e.IsTerminal()
  {
    if e.End? then Response(200, Processed(AUDIO_PROCESSED, outputPath))
    else Response(500, Text(PROCESSING_FAILED))
  }

  function Emitted(r: Option<Response>): seq<Response> {
    if r.Some? then [r.value] else []
  }

  /**
   * One event: `start` only logs; `end` and `error` each send their reply. Nothing
   * guards against a second terminal event, which sends again; the phase keeps
   * the first outcome.
   */
  function Step(phase: Phase, outputPath: string, e: EngineEvent): (Phase, Option<Response>) {
    if !e.IsTerminal() then (phase, None)
    else (if phase == Running then Outcome(e) else phase, Some(Reply(e, outputPath)))
  }

  /** The phase reached and the responses sent after a series of events. */
  function Run(phase: Phase, outputPath: string, events: seq<EngineEvent>): (Phase, seq<Response>)
    decreases |events|
  {
    if events == [] then (phase, [])
    else
      var (q, sent) := Run(phase, outputPath, events[..|events| - 1]);
      var (q', r) := Step(q, outputPath, events[|events| - 1]);
      (q', sent + Emitted(r))
  }

  function Terminals(events: seq<EngineEvent>): nat
    decreases |events|
  {
    if events == [] then 0
    else Terminals(events[..|events| - 1]) + (if events[|events| - 1].IsTerminal() then 1 else 0)
  }

  /** The first `end` or `error` in the series. */
  function FirstTerminal(events: seq<EngineEvent>): (e: EngineEvent)
    requires Terminals(events) > 0
    ensures e.IsTerminal()
    decreases |events|
  {
    if Terminals(events[..|events| - 1]) > 0 then FirstTerminal(events[..|events| - 1])
    else events[|events| - 1]
  }

  /** Every terminal event sends one response, and no other event sends any. */
  lemma {:induction false} RunRepliesOncePerTerminal(phase: Phase, outputPath: string, events: seq<EngineEvent>)
    ensures |Run(phase, outputPath, events).1| == Terminals(events)
    decreases |events|
  {
    if events != [] {
      RunRepliesOncePerTerminal(phase, outputPath, events[..|events| - 1]);
    }
  }

  /** Once finished, a job never goes back to Running nor changes its outcome. */
  lemma {:induction false} RunSettled(phase: Phase, outputPath: string, events: seq<EngineEvent>)
    requires phase != Running
    ensures Run(phase, outputPath, events).0 == phase
    decreases |events|
  {
    if events != [] {
      RunSettled(phase, outputPath, events[..|events| - 1]);
    }
  }

  /**
   * Without a terminal event the job stays Running and the client gets no answer:
   * nothing times the engine out.
   */
  lemma {:induction false} RunWithoutTerminal(outputPath: string, events: seq<EngineEvent>)
    requires Terminals(events) == 0
    ensures Run(Running, outputPath, events) == (Running, [])
    decreases |events|
  {
    if events != [] {
      RunWithoutTerminal(outputPath, events[..|events| - 1]);
      var none: seq<Response> := [];
      assert none + none == none;
    }
  }

  /**
   * Assuming the engine emits exactly one terminal event, the client gets exactly
   * one response: success with the output path after `end`, the failure message
   * after `error`.
   */
  lemma {:induction false} RunWithOneTerminal(outputPath: string, events: seq<EngineEvent>)
    requires Terminals(events) == 1
    ensures Run(Running, outputPath, events)
            == (Outcome(FirstTerminal(events)), [Reply(FirstTerminal(events), outputPath)])
    decreases |events|
  {
    var init, last := events[..|events| - 1], events[|events| - 1];
    if Terminals(init) == 0 {
      RunWithoutTerminal(outputPath, init);
      var none: seq<Response> := [];
      assert none + [Reply(last, outputPath)] == [Reply(last, outputPath)];
    } else {
      RunWithOneTerminal(outputPath, init);
      var sent := [Reply(FirstTerminal(init), outputPath)];
      assert sent + [] == sent;
    }
  }

  /** A second terminal event is answered again: the one-terminal-event assumption is needed. */
  lemma TwoTerminalsReplyTwice(outputPath: string, message: string)
    ensures Run(Running, outputPath, [End, Error(message)])
            == (Succeeded, [Reply(End, outputPath), Reply(Error(message), outputPath)])
  {
    var events := [End, Error(message)];
    assert events[..1] == [End] && [End][..0] == [];
    assert Terminals([End]) == 1;
    RunWithOneTerminal(outputPath, [End]);
    var first := [Reply(End, outputPath)];
    assert Run(Running, outputPath, events[..1]) == (Succeeded, first);
    assert Step(Succeeded, outputPath, Error(message)) == (Succeeded, Some(Reply(Error(message), outputPath)));
    assert first + [Reply(Error(message), outputPath)] == [Reply(End, outputPath), Reply(Error(message), outputPath)];
  }

  /** The engine reports start then end for file "F": the client sees success at <base>/processed/F-processed.wav. */
  lemma SuccessScenario(baseDir: string, commandLine: string)
    ensures Run(Running, OutputPath(baseDir, "F"), [Start(commandLine), End])
            == (Succeeded, [Response(200, Processed(AUDIO_PROCESSED, baseDir + "/processed/F-processed.wav"))])
  {
    var events := [Start(commandLine), End];
    assert events[..1] == [Start(commandLine)] && [Start(commandLine)][..0] == [];
    assert Terminals([Start(commandLine)]) == 0;
    assert Terminals(events) == 1;
    assert FirstTerminal(events) == End;
    assert OutputPath(baseDir, "F") == baseDir + "/processed/F-processed.wav";
    RunWithOneTerminal(OutputPath(baseDir, "F"), events);
  }

  /** One dispatched engine invocation and the handlers waiting on it. */
  class Job {
    const request: TransformRequest
    var phase: Phase
    var replies: seq<Response>
    /** The events delivered so far. */
    ghost var events: seq<EngineEvent>

    ghost predicate Valid()
      reads this
    {
      (phase, replies) == Run(Running, request.outputPath, events)
    }

    /** The job as `.save(outputPath)` leaves it: running, nothing sent yet. */
    constructor (request: TransformRequest)
      ensures Valid()
      ensures this.request == request && phase == Running && replies == [] && events == []
    {
      this.request := request;
      phase := Running;
      replies := [];
      events := [];
    }

    /** Deliver one engine event to its handler. */
    method Handle(e: EngineEvent) returns (reply: Option<Response>)
      requires Valid()
      modifies this
      ensures Valid()
      ensures events == old(events) + [e]
      ensures (phase, reply) == Step(old(phase), request.outputPath, e)
      ensures replies == old(replies) + Emitted(reply)
    {
      if e.Start? {
        reply := None;
      } else if e.End? {
        reply := Some(Response(200, Processed(AUDIO_PROCESSED, request.outputPath)));
        if phase == Running { phase := Succeeded; }
      } else {
        reply := Some(Response(500, Text(PROCESSING_FAILED)));
        if phase == Running { phase := Failed; }
      }
      replies := replies + Emitted(reply);
      assert (events + [e])[..|events|] == events;
      events := events + [e];
    }
  }
}
