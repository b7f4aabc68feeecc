/** The bounded tool-calling loop that the planner and the optimized agent
    share (planner_agent.py:165-257, optimized_langchain_agent.py:161-250):

      for iteration in range(max_iterations):
          call the model on a prompt built from `messages`, consume its stream;
          stop, or append to `messages` and go round again
      else:
          yield what is due when the bound is reached

    An agent fills in the parts that differ: what one response does
    (`step`), how the prompt is built from the messages, the bound, and what
    is yielded on reaching the bound, which may depend on the last response.
    The lemmas here hold for every such agent. */
module AgentLoop {
  import opened Text
  import opened Messages

  /** Why an iteration ends the loop. */
  datatype Stop = Answered | EmptyStream | Crashed(error: string)

  /** How a run ends: an iteration stopped it, the bound was reached, or the
      agent could not start at all. */
  datatype Ending = Stopped(stop: Stop) | Exhausted | NotStarted

  /** One iteration: the pieces streamed out, the notice yielded after them,
      the messages appended, and the reason to stop, if any. */
  datatype Turn = Turn(pieces: seq<string>, notice: seq<string>, appended: seq<Message>, stop: Option<Stop>)

  datatype Loop = Loop(
    step: Response -> Turn,
    prompt: seq<Message> -> seq<Message>,
    maxIterations: int,
    exhausted: Option<Response> -> seq<string>)

  /** Everything a run produces: the yielded strings, the final message
      list, the model's responses in call order, and how it ended. */
  datatype Trace = Trace(out: seq<string>, messages: seq<Message>, responses: seq<Response>, ending: Ending)

  /** The iterations from the `i`-th on, with `messages` so far and the
      previous iteration's response, if there was one. */
  function RunFrom(loop: Loop, llm: Llm, i: nat, messages: seq<Message>, last: Option<Response>): Trace
    decreases if i < loop.maxIterations then loop.maxIterations - i else 0
  {
    if loop.maxIterations <= i then
      Trace(loop.exhausted(last), messages, [], Exhausted)
    else
      var r := llm(i, loop.prompt(messages));
      var t := loop.step(r);
      if t.stop.Some? then
        Trace(t.pieces + t.notice, messages + t.appended, [r], Stopped(t.stop.value))
      else
        var rest := RunFrom(loop, llm, i + 1, messages + t.appended, Some(r));
        Trace(t.pieces + rest.out, rest.messages, [r] + rest.responses, rest.ending)
  }

  /** One iteration that stops the loop: its pieces and notice are the
      rest of the output, and its messages the rest of the list. */
  lemma {:induction false} RunFromStop(loop: Loop, llm: Llm, i: nat, messages: seq<Message>, last: Option<Response>)
    requires i < loop.maxIterations
    requires !Continues(loop, llm(i, loop.prompt(messages)))
    ensures var t := loop.step(llm(i, loop.prompt(messages)));
      RunFrom(loop, llm, i, messages, last).out == t.pieces + t.notice &&
      RunFrom(loop, llm, i, messages, last).messages == messages + t.appended
  {
  }

  /** One iteration that goes on: its pieces come first, then the output of
      the iterations after it, which start from the list it extended. */
  lemma {:induction false} RunFromContinue(loop: Loop, llm: Llm, i: nat, messages: seq<Message>, last: Option<Response>)
    requires i < loop.maxIterations
    requires Continues(loop, llm(i, loop.prompt(messages)))
    ensures var r := llm(i, loop.prompt(messages));
      var t := loop.step(r);
      var rest := RunFrom(loop, llm, i + 1, messages + t.appended, Some(r));
      RunFrom(loop, llm, i, messages, last).out == t.pieces + rest.out &&
      RunFrom(loop, llm, i, messages, last).messages == rest.messages
  {
  }

  /** Past the bound nothing more is called: what is due on reaching it is
      the rest of the output, and the list stays as it is. */
  lemma {:induction false} RunFromDone(loop: Loop, llm: Llm, i: nat, messages: seq<Message>, last: Option<Response>)
    requires loop.maxIterations <= i
    ensures RunFrom(loop, llm, i, messages, last) == Trace(loop.exhausted(last), messages, [], Exhausted)
  {
  }

  /** The messages the iterations append, in call order. */
  function Exchange(loop: Loop, rs: seq<Response>): seq<Message> {
    if rs == [] then [] else Exchange(loop, rs[..|rs| - 1]) + loop.step(rs[|rs| - 1]).appended
  }

  /** The pieces the iterations stream out, in call order. */
  function Pieces(loop: Loop, rs: seq<Response>): seq<string> {
    if rs == [] then [] else Pieces(loop, rs[..|rs| - 1]) + loop.step(rs[|rs| - 1]).pieces
  }

  predicate Continues(loop: Loop, r: Response) {
    loop.step(r).stop.None?
  }

  lemma {:induction false} ExchangeCons(loop: Loop, r: Response, rs: seq<Response>)
    ensures Exchange(loop, [r] + rs) == loop.step(r).appended + Exchange(loop, rs)
    decreases |rs|
  {
    if rs == [] {
      assert ([r] + rs)[..0] == [];
    } else {
      var rs' := rs[..|rs| - 1];
      assert ([r] + rs)[..|rs|] == [r] + rs';
      ExchangeCons(loop, r, rs');
    }
  }

  lemma {:induction false} PiecesCons(loop: Loop, r: Response, rs: seq<Response>)
    ensures Pieces(loop, [r] + rs) == loop.step(r).pieces + Pieces(loop, rs)
    decreases |rs|
  {
    if rs == [] {
      assert ([r] + rs)[..0] == [];
    } else {
      var rs' := rs[..|rs| - 1];
      assert ([r] + rs)[..|rs|] == [r] + rs';
      PiecesCons(loop, r, rs');
    }
  }

  /** From the `i`-th iteration on the model is called at most
      `maxIterations - i` times, and the message list only grows: it ends as
      `messages` followed by what the iterations appended. */
  lemma {:induction false} RunFromGrows(loop: Loop, llm: Llm, i: nat, messages: seq<Message>, last: Option<Response>)
    ensures var t := RunFrom(loop, llm, i, messages, last);
      (t.responses == [] || i + |t.responses| <= loop.maxIterations) &&
      t.messages == messages + Exchange(loop, t.responses)
    decreases if i < loop.maxIterations then loop.maxIterations - i else 0
  {
    if i < loop.maxIterations {
      var r := llm(i, loop.prompt(messages));
      var t := loop.step(r);
      if t.stop.Some? {
        assert [r][..0] == [];
      } else {
        var rest := RunFrom(loop, llm, i + 1, messages + t.appended, Some(r));
        RunFromGrows(loop, llm, i + 1, messages + t.appended, Some(r));
        ExchangeCons(loop, r, rest.responses);
      }
    }
  }

  /** The `k`-th call from the `i`-th iteration on is the `(i + k)`-th call
      of the model, prompted with the list as it stood after the first `k`
      responses were acted on. */
  lemma {:induction false} RunFromPrompts(loop: Loop, llm: Llm, i: nat, messages: seq<Message>, last: Option<Response>, k: nat)
    requires k < |RunFrom(loop, llm, i, messages, last).responses|
    ensures var rs := RunFrom(loop, llm, i, messages, last).responses;
      rs[k] == llm(i + k, loop.prompt(messages + Exchange(loop, rs[..k])))
    decreases k
  {
    var r := llm(i, loop.prompt(messages));
    var t := loop.step(r);
    if k == 0 {
      assert messages + Exchange(loop, []) == messages;
    } else {
      var rest := RunFrom(loop, llm, i + 1, messages + t.appended, Some(r));
      RunFromPrompts(loop, llm, i + 1, messages + t.appended, Some(r), k - 1);
      var rs := [r] + rest.responses;
      assert RunFrom(loop, llm, i, messages, last).responses == rs;
      assert rs[k] == rest.responses[k - 1];
      assert rs[..k] == [r] + rest.responses[..k - 1];
      ExchangeCons(loop, r, rest.responses[..k - 1]);
      var x := Exchange(loop, rest.responses[..k - 1]);
      assert Exchange(loop, rs[..k]) == t.appended + x;
      assert messages + Exchange(loop, rs[..k]) == (messages + t.appended) + x;
      assert rs[k] == llm(i + k, loop.prompt((messages + t.appended) + x));
    }
  }

  /** The response the bound's notice is about: the last one of the run, or
      the one before the run when it made no call. */
  function LastOf(rs: seq<Response>, before: Option<Response>): Option<Response> {
    if rs == [] then before else Some(rs[|rs| - 1])
  }

  /** Only the last response can stop the loop, and the run ends exhausted
      exactly when no response stopped it. */
  lemma {:induction false} RunFromStops(loop: Loop, llm: Llm, i: nat, messages: seq<Message>, last: Option<Response>)
    ensures var t := RunFrom(loop, llm, i, messages, last);
      (forall k :: 0 <= k < |t.responses| - 1 ==> Continues(loop, t.responses[k])) &&
      (t.ending == Exhausted <==> forall k :: 0 <= k < |t.responses| ==> Continues(loop, t.responses[k]))
    decreases if i < loop.maxIterations then loop.maxIterations - i else 0
  {
    if i < loop.maxIterations {
      var r := llm(i, loop.prompt(messages));
      var t := loop.step(r);
      if t.stop.None? {
        var rest := RunFrom(loop, llm, i + 1, messages + t.appended, Some(r));
        RunFromStops(loop, llm, i + 1, messages + t.appended, Some(r));
        var rs := [r] + rest.responses;
        assert RunFrom(loop, llm, i, messages, last).responses == rs;
        assert RunFrom(loop, llm, i, messages, last).ending == rest.ending;
        assert forall k :: 1 <= k < |rs| ==> rs[k] == rest.responses[k - 1];
        assert forall k :: 0 <= k < |rest.responses| ==> rest.responses[k] == rs[k + 1];
        assert Continues(loop, rs[0]);
      } else {
        assert !Continues(loop, RunFrom(loop, llm, i, messages, last).responses[0]);
      }
    }
  }

  /** The output is the pieces of all responses in order, then one closing
      notice: the bound's notice, or the notice of the response that
      stopped the loop. */
  lemma {:induction false} RunFromOutput(loop: Loop, llm: Llm, i: nat, messages: seq<Message>, last: Option<Response>)
    ensures var t := RunFrom(loop, llm, i, messages, last);
      (t.ending == Exhausted ==> t.out == Pieces(loop, t.responses) + loop.exhausted(LastOf(t.responses, last))) &&
      (t.ending != Exhausted ==> StoppedBy(loop, t))
    decreases if i < loop.maxIterations then loop.maxIterations - i else 0
  {
    if i < loop.maxIterations {
      var r := llm(i, loop.prompt(messages));
      var t := loop.step(r);
      if t.stop.Some? {
        assert [r][..0] == [];
        assert Pieces(loop, [r]) == t.pieces;
      } else {
        var rest := RunFrom(loop, llm, i + 1, messages + t.appended, Some(r));
        RunFromOutput(loop, llm, i + 1, messages + t.appended, Some(r));
        OutputCons(loop, r, rest, last);
      }
    }
  }

  /** The output property survives putting a continuing response in front. */
  lemma {:induction false} OutputCons(loop: Loop, r: Response, rest: Trace, last: Option<Response>)
    requires Continues(loop, r)
    requires rest.ending == Exhausted ==>
      rest.out == Pieces(loop, rest.responses) + loop.exhausted(LastOf(rest.responses, Some(r)))
    requires rest.ending != Exhausted ==> StoppedBy(loop, rest)
    ensures var whole := Trace(loop.step(r).pieces + rest.out, rest.messages, [r] + rest.responses, rest.ending);
      (whole.ending == Exhausted ==>
        whole.out == Pieces(loop, whole.responses) + loop.exhausted(LastOf(whole.responses, last))) &&
      (whole.ending != Exhausted ==> StoppedBy(loop, whole))
  {
    var p := loop.step(r).pieces;
    var rs := [r] + rest.responses;
    PiecesCons(loop, r, rest.responses);
    if rest.ending == Exhausted {
      var notice := loop.exhausted(LastOf(rest.responses, Some(r)));
      assert LastOf(rs, last) == LastOf(rest.responses, Some(r));
      assert p + (Pieces(loop, rest.responses) + notice) == (p + Pieces(loop, rest.responses)) + notice;
    } else {
      assert rs[|rs| - 1] == rest.responses[|rest.responses| - 1];
      var notice := loop.step(rs[|rs| - 1]).notice;
      assert p + (Pieces(loop, rest.responses) + notice) == (p + Pieces(loop, rest.responses)) + notice;
    }
  }

  /** The run was stopped by its last response, which streamed its pieces
      and then its notice. */
  predicate StoppedBy(loop: Loop, t: Trace) {
    t.responses != [] &&
    var lastTurn := loop.step(t.responses[|t.responses| - 1]);
    lastTurn.stop.Some? && t.ending == Stopped(lastTurn.stop.value) &&
    t.out == Pieces(loop, t.responses) + lastTurn.notice
  }

  /** A whole run from `start`. */
  function Run(loop: Loop, llm: Llm, start: seq<Message>): Trace {
    RunFrom(loop, llm, 0, start, None)
  }

  /** How a run ends: every response but the last continued the loop; it
      ran out of iterations exactly when all of them did, and then yields
      their streamed pieces and what is due on reaching the bound. */
  lemma {:induction false} RunEnding(loop: Loop, llm: Llm, start: seq<Message>)
    ensures var t := Run(loop, llm, start);
      (forall k :: 0 <= k < |t.responses| - 1 ==> Continues(loop, t.responses[k])) &&
      (t.ending == Exhausted <==> forall k :: 0 <= k < |t.responses| ==> Continues(loop, t.responses[k])) &&
      (t.ending == Exhausted ==> t.out == Pieces(loop, t.responses) + loop.exhausted(LastOf(t.responses, None))) &&
      (t.ending != Exhausted ==> StoppedBy(loop, t))
  {
    RunFromStops(loop, llm, 0, start, None);
    RunFromOutput(loop, llm, 0, start, None);
  }

  /** The whole run: at most `maxIterations` model calls, the `k`-th
      prompted with `start` and everything appended by the first `k`
      responses; the final list is `start` followed by all that was
      appended; the output is the streamed pieces in call order, then one
      closing notice. */
  lemma {:induction false} RunTrace(loop: Loop, llm: Llm, start: seq<Message>)
    ensures var t := Run(loop, llm, start);
      (t.responses == [] || |t.responses| <= loop.maxIterations) &&
      t.messages == start + Exchange(loop, t.responses) &&
      (forall k :: 0 <= k < |t.responses| ==>
        t.responses[k] == llm(k, loop.prompt(start + Exchange(loop, t.responses[..k])))) &&
      (forall k :: 0 <= k < |t.responses| - 1 ==> Continues(loop, t.responses[k])) &&
      (t.ending == Exhausted <==> forall k :: 0 <= k < |t.responses| ==> Continues(loop, t.responses[k])) &&
      (t.ending == Exhausted ==> t.out == Pieces(loop, t.responses) + loop.exhausted(LastOf(t.responses, None))) &&
      (t.ending != Exhausted ==> StoppedBy(loop, t))
  {
    RunFromGrows(loop, llm, 0, start, None);
    RunEnding(loop, llm, start);
    var t := Run(loop, llm, start);
    forall k | 0 <= k < |t.responses|
      ensures t.responses[k] == llm(k, loop.prompt(start + Exchange(loop, t.responses[..k])))
    {
      RunFromPrompts(loop, llm, 0, start, None, k);
    }
  }
}
