/** The streaming filter of the `/plan` endpoint that removes a leading
    `<think>...</think>` block from the planner's token stream
    (api.py, the `generate` closure of `plan`).

    The filter is a state machine over the token stream with two flags and a
    string buffer.  Its meaning is given by `Filtered`, a definition over the
    whole input sequence; the method that runs the state machine is proved to
    produce exactly `Filtered(tokens)`.  The code takes its decision on the
    first token alone; `StripLeadingThink` is the version that buffers a
    partial `<think>` prefix, as the comments and the end-of-stream flush of
    the code evidently intend: whether the block is removed then depends on
    the text of the stream, not on whether `<think>` arrives in one token or
    in several. */
module ThinkFilter {
  import opened Text

  const Open: string := "<think>"
  const Close: string := "</think>"

  predicate HasClose(s: string) {
    Contains(s, Close)
  }

  /** The index of the token with which the text of the stream first holds `</think>`. */
  function CloseIndex(tokens: seq<string>): (r: Option<nat>)
    ensures r.Some? ==> r.value < |tokens| && HasClose(Concat(tokens[..r.value + 1]))
    ensures r.None? ==> !HasClose(Concat(tokens))
  {
    if tokens == [] then None
    else
      var q := CloseIndex(tokens[..|tokens| - 1]);
      if q.Some? then
        assert tokens[..|tokens| - 1][..q.value + 1] == tokens[..q.value + 1];
        q
      else if HasClose(Concat(tokens)) then
        assert tokens[..|tokens|] == tokens;
        Some(|tokens| - 1)
      else None
  }

  /** No earlier token completes `</think>`: the close index is the first one. */
  lemma {:induction false} CloseIndexFirst(tokens: seq<string>)
    requires CloseIndex(tokens).Some?
    ensures !HasClose(Concat(tokens[..CloseIndex(tokens).value]))
  {
    var q := CloseIndex(tokens[..|tokens| - 1]);
    if q.Some? {
      CloseIndexFirst(tokens[..|tokens| - 1]);
      assert tokens[..|tokens| - 1][..q.value] == tokens[..q.value];
    }
  }

  lemma {:induction false} PrefixConcat(tokens: seq<string>, i: nat)
    requires i < |tokens|
    ensures Concat(tokens[..i + 1]) == Concat(tokens[..i]) + tokens[i]
  {
    assert tokens[..i + 1][..i] == tokens[..i];
  }

  /** The first `i + 1` tokens are looked at through their first `i`. */
  lemma {:induction false} CloseIndexStep(tokens: seq<string>, i: nat)
    requires i < |tokens|
    ensures CloseIndex(tokens[..i + 1]) ==
            (if CloseIndex(tokens[..i]).Some? then CloseIndex(tokens[..i])
             else if HasClose(Concat(tokens[..i + 1])) then Some(i) else None)
  {
    assert tokens[..i + 1][..i] == tokens[..i];
  }

  /** Once a prefix of the stream holds `</think>`, every longer one does. */
  lemma {:induction false} HasCloseAppend(a: string, b: string)
    requires HasClose(a)
    ensures HasClose(a + b)
  {
    IndexOfFirst(a, Close);
    var k := IndexOf(a, Close).value;
    assert (a + b)[k..k + |Close|] == a[k..k + |Close|];
    IndexOfFirst(a + b, Close);
    assert OccursAt(a + b, Close, k);
  }

  /** The first occurrence of `</think>` in `a` is also its first occurrence in `a + b`. */
  lemma {:induction false} IndexOfAppend(a: string, b: string, p: string)
    requires Contains(a, p)
    ensures Contains(a + b, p) && IndexOf(a + b, p) == IndexOf(a, p)
  {
    IndexOfFirst(a, p);
    IndexOfFirst(a + b, p);
    var k := IndexOf(a, p).value;
    assert (a + b)[k..k + |p|] == a[k..k + |p|];
    assert OccursAt(a + b, p, k);
    var k' := IndexOf(a + b, p).value;
    if k' + |p| <= |a| {
      assert (a + b)[k'..k' + |p|] == a[k'..k' + |p|];
      assert OccursAt(a, p, k');
    }
  }

  /** What follows `</think>` in a prefix, followed by the rest of the text,
      is what follows `</think>` in the whole text. */
  lemma {:induction false} AfterFirstAppend(a: string, b: string)
    requires HasClose(a)
    ensures HasClose(a + b) && AfterFirst(a + b, Close) == AfterFirst(a, Close) + b
  {
    IndexOfAppend(a, b, Close);
    IndexOfFirst(a, Close);
    var k := IndexOf(a, Close).value;
    assert (a + b)[k + |Close|..] == a[k + |Close|..] + b;
  }

  /** The code's test at the first token: after left-stripping, it starts with `<think>`. */
  predicate OpensWithThink(tokens: seq<string>) {
    |tokens| > 0 && StartsWith(LStrip(tokens[0]), Open)
  }

  /** A stream whose first token opens with `<think>` has a text that does. */
  lemma {:induction false} OpensText(tokens: seq<string>)
    requires OpensWithThink(tokens)
    ensures StartsWith(LStrip(Concat(tokens)), Open)
  {
    ConcatFirst(tokens);
    LStripStartsWithAppend(tokens[0], Concat(tokens[1..]), Open);
  }

  /** What the filter yields for a think block closed in `text`: the part
      after the first `</think>`, as one token, unless it is blank. */
  function Remainder(text: string): (r: seq<string>)
    requires HasClose(text)
    ensures |r| <= 1
  {
    var after := AfterFirst(text, Close);
    if IsBlank(after) then [] else [after]
  }

  /** What is yielded for a stream that opens a think block: nothing until
      the text so far holds `</think>` (at token `k`), then the remainder of
      that text and every later token; a block that never closes yields
      nothing. */
  function BlockOutput(tokens: seq<string>): seq<string> {
    match CloseIndex(tokens)
      case None => []
      case Some(k) => Remainder(Concat(tokens[..k + 1])) + tokens[k + 1..]
  }

  /** The meaning of the filter as written: a stream whose first token does
      not open with `<think>` passes unchanged; any other stream is treated
      as opening a think block. */
  function Filtered(tokens: seq<string>): seq<string> {
    if !OpensWithThink(tokens) then tokens else BlockOutput(tokens)
  }

  /** The state of the code's loop after the tokens `p`, and what it has yielded. */
  ghost predicate AsWrittenState(p: seq<string>, checkDone: bool, stripping: bool, buffer: string, out: seq<string>) {
    if p == [] then !checkDone && !stripping && buffer == [] && out == []
    else if !OpensWithThink(p) then checkDone && !stripping && buffer == [] && out == p
    else match CloseIndex(p)
      case None => !checkDone && stripping && buffer == Concat(p) && out == []
      case Some(k) => checkDone && !stripping && buffer == [] && out == Remainder(Concat(p[..k + 1])) + p[k + 1..]
  }

  /** Which of the code's branches a state takes is determined by its two flags. */
  lemma {:induction false} StateFlags(p: seq<string>, checkDone: bool, stripping: bool, buffer: string, out: seq<string>)
    requires AsWrittenState(p, checkDone, stripping, buffer, out)
    ensures !checkDone && !stripping ==> p == [] && buffer == [] && out == []
    ensures !checkDone && stripping ==>
              OpensWithThink(p) && CloseIndex(p).None? && buffer == Concat(p) && out == []
    ensures checkDone ==> p != [] && !stripping && buffer == []
  {
  }

  /** The first token decides: it passes through, or it starts the buffer,
      which is checked for `</think>` at once. */
  lemma {:induction false} StepFirst(token: string, closed: bool, emitted: seq<string>)
    requires StartsWith(LStrip(token), Open)
    requires closed == HasClose(token) && emitted == if closed then Remainder(token) else []
    ensures closed ==> AsWrittenState([token], true, false, [], emitted)
    ensures !closed ==> AsWrittenState([token], false, true, token, emitted)
  {
    assert [token][..0] == [];
    assert [token][..1] == [token];
    assert [token][1..] == [];
    assert Concat([token]) == token;
    assert CloseIndex([token]) == if closed then Some(0) else None;
  }

  /** A token while the block is open joins the buffer, which is checked for `</think>`. */
  lemma {:induction false} StepOpen(tokens: seq<string>, i: nat, buffer: string, closed: bool, emitted: seq<string>)
    requires 0 < i < |tokens|
    requires OpensWithThink(tokens[..i]) && CloseIndex(tokens[..i]).None?
    requires buffer == Concat(tokens[..i]) + tokens[i]
    requires closed == HasClose(buffer) && emitted == if closed then Remainder(buffer) else []
    ensures closed ==> AsWrittenState(tokens[..i + 1], true, false, [], emitted)
    ensures !closed ==> AsWrittenState(tokens[..i + 1], false, true, buffer, emitted)
  {
    PrefixConcat(tokens, i);
    CloseIndexStep(tokens, i);
    assert tokens[..i + 1][0] == tokens[..i][0];
    assert tokens[..i + 1][..i + 1] == tokens[..i + 1];
    assert tokens[..i + 1][i + 1..] == [];
  }

  /** After the decision to pass through, or after the block closed, a token is yielded as it is. */
  lemma {:induction false} StepDone(tokens: seq<string>, i: nat, out: seq<string>)
    requires i < |tokens|
    requires AsWrittenState(tokens[..i], true, false, [], out)
    ensures AsWrittenState(tokens[..i + 1], true, false, [], out + [tokens[i]])
  {
    if OpensWithThink(tokens[..i]) {
      StepDoneClosed(tokens, i, CloseIndex(tokens[..i]).value, out);
    } else {
      assert tokens[..i + 1][0] == tokens[..i][0];
      assert tokens[..i + 1] == tokens[..i] + [tokens[i]];
    }
  }

  lemma {:induction false} StepDoneClosed(tokens: seq<string>, i: nat, k: nat, out: seq<string>)
    requires i < |tokens| && OpensWithThink(tokens[..i]) && CloseIndex(tokens[..i]) == Some(k)
    requires out == Remainder(Concat(tokens[..i][..k + 1])) + tokens[..i][k + 1..]
    ensures AsWrittenState(tokens[..i + 1], true, false, [], out + [tokens[i]])
  {
    assert tokens[..i + 1][0] == tokens[..i][0];
    CloseIndexStep(tokens, i);
    ExtendSlices(tokens, i, k + 1);
  }

  /** The block shared by both buffering branches of the filter: once the
      buffer holds `</think>`, its non-blank remainder is yielded. */
  method CloseCheck(buffer: string) returns (closed: bool, emitted: seq<string>)
    ensures closed == HasClose(buffer)
    ensures emitted == if closed then Remainder(buffer) else []
  {
    closed := Contains(buffer, Close);
    emitted := [];
    if closed {
      var after := AfterFirst(buffer, Close);
      if !IsBlank(after) {
        emitted := [after];
      }
    }
  }

  /** One token of the filter as written: the state stays the one the
      code reaches after the tokens seen so far. */
  method StepAsWritten(tokens: seq<string>, i: nat, checkDone0: bool, stripping0: bool, buffer0: string, out0: seq<string>)
    returns (checkDone: bool, stripping: bool, buffer: string, out: seq<string>)
    requires i < |tokens| && AsWrittenState(tokens[..i], checkDone0, stripping0, buffer0, out0)
    ensures AsWrittenState(tokens[..i + 1], checkDone, stripping, buffer, out)
  {
    var token := tokens[i];
    checkDone, stripping, buffer, out := checkDone0, stripping0, buffer0, out0;
    StateFlags(tokens[..i], checkDone0, stripping0, buffer0, out0);
    if !checkDone {
      if !stripping {
        assert i == 0 && buffer + token == token;
        assert tokens[..1] == [token];
        var potential := LStrip(buffer + token);
        if StartsWith(potential, Open) {
          stripping := true;
          buffer := buffer + token;
          var closed, emitted := CloseCheck(buffer);
          StepFirst(token, closed, emitted);
          if closed {
            checkDone, stripping, buffer := true, false, "";
          }
          out := out + emitted;
          assert AsWrittenState(tokens[..i + 1], checkDone, stripping, buffer, out);
        } else {
          if buffer != "" {
            out := out + [buffer];
          }
          out := out + [token];
          checkDone := true;
          buffer := "";
          assert AsWrittenState(tokens[..i + 1], checkDone, stripping, buffer, out);
        }
      } else {
        buffer := buffer + token;
        var closed, emitted := CloseCheck(buffer);
        StepOpen(tokens, i, buffer, closed, emitted);
        if closed {
          checkDone, stripping, buffer := true, false, "";
        }
        out := out + emitted;
        assert AsWrittenState(tokens[..i + 1], checkDone, stripping, buffer, out);
      }
    } else {
      StepDone(tokens, i, out);
      out := out + [token];
      assert AsWrittenState(tokens[..i + 1], checkDone, stripping, buffer, out);
    }
  }

  /** The filter as written in the `/plan` endpoint. */
  method StripLeadingThinkAsWritten(tokens: seq<string>) returns (out: seq<string>)
    ensures out == Filtered(tokens)
  {
    var checkDone := false;
    var stripping := false;
    var buffer := "";
    out := [];
    for i := 0 to |tokens|
      invariant AsWrittenState(tokens[..i], checkDone, stripping, buffer, out)
    {
      checkDone, stripping, buffer, out := StepAsWritten(tokens, i, checkDone, stripping, buffer, out);
    }
    assert tokens[..|tokens|] == tokens;
    if OpensWithThink(tokens) {
      OpensText(tokens);
    }
    if !checkDone && buffer != "" {
      if !StartsWith(LStrip(buffer), Open) {
        out := out + [buffer];
      }
    }
  }

  /** The close index of a prefix is the close index of the whole stream. */
  lemma {:induction false} CloseIndexStable(tokens: seq<string>, i: nat)
    requires i <= |tokens| && CloseIndex(tokens[..i]).Some?
    ensures CloseIndex(tokens) == CloseIndex(tokens[..i])
    decreases |tokens| - i
  {
    if i == |tokens| {
      assert tokens[..i] == tokens;
    } else {
      CloseIndexStep(tokens, i);
      CloseIndexStable(tokens, i + 1);
    }
  }

  /** The stream's text holds `</think>` exactly when some token completes it. */
  lemma {:induction false} CloseIndexIffHasClose(tokens: seq<string>)
    ensures CloseIndex(tokens).Some? <==> HasClose(Concat(tokens))
  {
    if CloseIndex(tokens).Some? {
      var k := CloseIndex(tokens).value;
      ConcatSplit(tokens, k + 1);
      HasCloseAppend(Concat(tokens[..k + 1]), Concat(tokens[k + 1..]));
    }
  }

  lemma {:induction false} SlicesOfPrefix(tokens: seq<string>, j: nat, k: nat)
    requires k < j <= |tokens|
    ensures tokens[..j][..k + 1] == tokens[..k + 1]
    ensures tokens[..j][k + 1..] <= tokens[k + 1..]
  {
  }

  lemma {:induction false} FilteredOnlineClosed(tokens: seq<string>, j: nat, k: nat)
    requires 0 < j <= |tokens| && OpensWithThink(tokens) && CloseIndex(tokens[..j]) == Some(k)
    ensures Filtered(tokens[..j]) <= Filtered(tokens)
  {
    var p := tokens[..j];
    assert p[0] == tokens[0];
    CloseIndexStable(tokens, j);
    SlicesOfPrefix(tokens, j, k);
    var r := Remainder(Concat(tokens[..k + 1]));
    assert Filtered(p) == r + p[k + 1..];
    assert Filtered(tokens) == r + tokens[k + 1..];
  }

  /** The filter is online: what it yields for the first `j` tokens is never
      retracted, whatever tokens follow. */
  lemma {:induction false} FilteredOnline(tokens: seq<string>, j: nat)
    requires j <= |tokens|
    ensures Filtered(tokens[..j]) <= Filtered(tokens)
  {
    var p := tokens[..j];
    if j == 0 {
      assert p == [];
    } else {
      assert p[0] == tokens[0];
      if !OpensWithThink(tokens) {
        assert Filtered(p) == p;
        assert Filtered(tokens) == tokens;
      } else if CloseIndex(p).Some? {
        FilteredOnlineClosed(tokens, j, CloseIndex(p).value);
      } else {
        assert Filtered(p) == [];
      }
    }
  }

  /** While a stream that opens with `<think>` has not yet shown `</think>`,
      nothing at all is yielded. */
  lemma {:induction false} FilteredSilentWhileOpen(tokens: seq<string>, j: nat)
    requires OpensWithThink(tokens) && 0 < j <= |tokens| && !HasClose(Concat(tokens[..j]))
    ensures Filtered(tokens[..j]) == []
  {
    assert tokens[..j][0] == tokens[0];
    CloseIndexIffHasClose(tokens[..j]);
  }

  lemma {:induction false} ConcatRemainder(text: string)
    requires HasClose(text)
    ensures Concat(Remainder(text)) == if IsBlank(AfterFirst(text, Close)) then [] else AfterFirst(text, Close)
  {
    var after := AfterFirst(text, Close);
    if !IsBlank(after) {
      assert [after][..0] == [];
    }
  }

  /** Dropping a blank head from `after + rest` leaves a suffix. */
  lemma {:induction false} DropBlankHead(after: string, rest: string, kept: string)
    requires kept == after || (kept == [] && IsBlank(after))
    ensures BlankThen(after + rest, kept + rest)
  {
    var a, t := after + rest, kept + rest;
    assert a[|a| - |t|..] == t;
    assert a[..|a| - |t|] == (if kept == after then [] else after);
  }

  /** The text yielded for a closed think block is what follows the first
      `</think>` in the stream, less at most a blank piece dropped at its start. */
  lemma {:induction false} BlockRemainderText(tokens: seq<string>, k: nat, out: seq<string>)
    requires CloseIndex(tokens) == Some(k)
    requires out == Remainder(Concat(tokens[..k + 1])) + tokens[k + 1..]
    ensures HasClose(Concat(tokens))
    ensures BlankThen(AfterFirst(Concat(tokens), Close), Concat(out))
  {
    var head, rest := Concat(tokens[..k + 1]), Concat(tokens[k + 1..]);
    ConcatSplit(tokens, k + 1);
    AfterFirstAppend(head, rest);
    var r := Remainder(head);
    ConcatAppend(r, tokens[k + 1..]);
    ConcatRemainder(head);
    DropBlankHead(AfterFirst(head, Close), rest, Concat(r));
  }

  /** As written, a stream opening with `<think>` on its first token is
      reduced to what follows the first `</think>` in its text; when that
      remainder starts with a visible character it is kept in full. */
  lemma {:induction false} FilteredClosedBlock(tokens: seq<string>)
    requires OpensWithThink(tokens) && HasClose(Concat(tokens))
    ensures var a := AfterFirst(Concat(tokens), Close);
            var t := Concat(Filtered(tokens));
            BlankThen(a, t) && (a == [] || !IsSpace(a[0]) ==> t == a)
  {
    CloseIndexIffHasClose(tokens);
    BlockRemainderText(tokens, CloseIndex(tokens).value, Filtered(tokens));
    var a := AfterFirst(Concat(tokens), Close);
    var t := Concat(Filtered(tokens));
    BlankThenVisible(a, t);
  }

  /** A stream whose `<think>` is split over its first two tokens. */
  const SplitStream: seq<string> := ["<th", "ink>hidden" + Close, "Visible answer"]

  lemma {:induction false} SplitStreamText()
    ensures Concat(SplitStream) == "<think>hidden" + Close + SplitStream[2]
  {
    var a, b, c := SplitStream[0], SplitStream[1], SplitStream[2];
    assert Concat([a]) == a by {
      assert [a][..0] == [];
    }
    assert Concat([a, b]) == a + b by {
      assert [a, b][..1] == [a];
    }
    assert SplitStream[..2] == [a, b];
    assert a + "ink>hidden" == "<think>hidden";
  }

  /** The first `</think>` of a text that opens with `<think>hidden</think>`. */
  lemma {:induction false} HiddenBlockClose(pre: string, post: string)
    requires pre == "<think>hidden"
    ensures HasClose(pre + Close + post) && AfterFirst(pre + Close + post, Close) == post
  {
    var text := pre + Close + post;
    assert text[|pre|..|pre| + |Close|] == Close;
    assert OccursAt(text, Close, |pre|);
    ContainsIffOccurs(text, Close);
    IndexOfFirst(text, Close);
    forall j | 0 <= j < |pre|
      ensures !OccursAt(text, Close, j)
    {
      assert text[j + 1] == (pre + "<")[j + 1];
      assert text[j..j + |Close|][1] == text[j + 1];
    }
    assert text[|pre| + |Close|..] == post;
  }

  lemma {:induction false} SplitStreamOpensAndCloses()
    ensures StartsWith(LStrip(Concat(SplitStream)), Open) && HasClose(Concat(SplitStream))
    ensures AfterFirst(Concat(SplitStream), Close) == SplitStream[2]
  {
    SplitStreamText();
    var text := Concat(SplitStream);
    HiddenBlockClose("<think>hidden", SplitStream[2]);
    assert text[0] == '<';
    assert LeadingSpace(text) == 0;
    assert text[..7] == "<think>hidden"[..7];
  }

  /** The first-token decision makes the as-written filter depend on where
      the chunk boundaries fall: a `<think>` split over two tokens lets the
      whole think block through, although the text opens with `<think>` and
      closes it. */
  lemma {:induction false} SplitOpenLeaks()
    ensures StartsWith(LStrip(Concat(SplitStream)), Open) && HasClose(Concat(SplitStream))
    ensures Filtered(SplitStream) == SplitStream
  {
    SplitStreamOpensAndCloses();
    assert LeadingSpace(SplitStream[0]) == 0;
  }

  // ----- The corrected filter -----

  /** After left-stripping, the text so far is a proper prefix of `<think>`:
      the stream may still open a think block, and cannot be decided yet. */
  predicate Undecided(s: string) {
    StartsWith(Open, LStrip(s)) && !StartsWith(LStrip(s), Open)
  }

  /** The index of the token with which the text of the stream stops being undecided. */
  function DecisionIndex(tokens: seq<string>): (r: Option<nat>)
    ensures r.Some? ==> r.value < |tokens| && !Undecided(Concat(tokens[..r.value + 1]))
    ensures r.None? ==> Undecided(Concat(tokens))
  {
    if tokens == [] then None
    else
      var q := DecisionIndex(tokens[..|tokens| - 1]);
      if q.Some? then
        assert tokens[..|tokens| - 1][..q.value + 1] == tokens[..q.value + 1];
        q
      else if !Undecided(Concat(tokens)) then
        assert tokens[..|tokens|] == tokens;
        Some(|tokens| - 1)
      else None
  }

  lemma {:induction false} DecisionIndexStep(tokens: seq<string>, i: nat)
    requires i < |tokens|
    ensures DecisionIndex(tokens[..i + 1]) ==
            (if DecisionIndex(tokens[..i]).Some? then DecisionIndex(tokens[..i])
             else if !Undecided(Concat(tokens[..i + 1])) then Some(i) else None)
  {
    assert tokens[..i + 1][..i] == tokens[..i];
  }

  /** Text still shorter than `<think>` cannot hold `</think>`. */
  lemma {:induction false} NoCloseWhileUndecided(s: string)
    requires Undecided(s)
    ensures !HasClose(s)
  {
    LeadingSpaceIsRun(s);
    var n := LeadingSpace(s);
    ContainsIffOccurs(s, Close);
    forall j | 0 <= j
      ensures !OccursAt(s, Close, j)
    {
      if j < n && j + |Close| <= |s| {
        assert s[j] == s[..n][j];
        assert s[j..j + |Close|][0] == s[j];
      }
    }
  }

  /** What the end-of-stream flush yields for an undecided buffer. */
  function Pending(text: string): (r: seq<string>)
    ensures Concat(r) == text
  {
    if text == [] then [] else
      assert [text][..0] == [];
      [text]
  }

  /** The intended meaning of the filter: the text is decided once it either
      opens with `<think>` (then the block is dropped as before) or can no
      longer do so (then everything buffered up to the deciding token `j`
      and every later token is yielded); a stream that ends undecided is
      yielded as it is. */
  function Intended(tokens: seq<string>): seq<string> {
    match DecisionIndex(tokens)
      case None => Pending(Concat(tokens))
      case Some(j) =>
        if StartsWith(LStrip(Concat(tokens)), Open) then BlockOutput(tokens)
        else Pending(Concat(tokens[..j])) + tokens[j..]
  }

  /** The decision taken at token `j` is the one the whole text calls for. */
  lemma {:induction false} DecisionSign(tokens: seq<string>)
    ensures DecisionIndex(tokens).None? ==> !StartsWith(LStrip(Concat(tokens)), Open)
    ensures DecisionIndex(tokens).Some? ==>
              (StartsWith(LStrip(Concat(tokens[..DecisionIndex(tokens).value + 1])), Open)
               <==> StartsWith(LStrip(Concat(tokens)), Open))
  {
    if DecisionIndex(tokens).Some? {
      var j := DecisionIndex(tokens).value;
      var head, rest := Concat(tokens[..j + 1]), Concat(tokens[j + 1..]);
      ConcatSplit(tokens, j + 1);
      var l := LStrip(head);
      if StartsWith(l, Open) {
        LStripStartsWithAppend(head, rest, Open);
      } else {
        LeadingSpaceIsRun(head);
        assert !IsBlank(head) by {
          assert head[LeadingSpace(head)] == l[0];
        }
        LStripAppend(head, rest);
        NotStartsWithAppend(l, rest, Open);
      }
    }
  }

  lemma {:induction false} ExtendSlices(tokens: seq<string>, i: nat, k: nat)
    requires k <= i < |tokens|
    ensures tokens[..i + 1][..k] == tokens[..i][..k]
    ensures tokens[..i + 1][k..] == tokens[..i][k..] + [tokens[i]]
  {
  }

  /** Once decided, the decision and its sign stay as they are. */
  lemma {:induction false} DecisionStable(tokens: seq<string>, i: nat)
    requires i < |tokens| && DecisionIndex(tokens[..i]).Some?
    ensures DecisionIndex(tokens[..i + 1]) == DecisionIndex(tokens[..i])
    ensures StartsWith(LStrip(Concat(tokens[..i + 1])), Open) <==> StartsWith(LStrip(Concat(tokens[..i])), Open)
  {
    var j := DecisionIndex(tokens[..i]).value;
    DecisionIndexStep(tokens, i);
    ExtendSlices(tokens, i, j + 1);
    DecisionSign(tokens[..i]);
    DecisionSign(tokens[..i + 1]);
  }

  /** After the tokens `p` the text is decided, and `out` is all the
      filter yields for them: the remainder of the closed block and what
      followed it, or everything once the text cannot open a block. */
  ghost predicate Decided(p: seq<string>, out: seq<string>) {
    DecisionIndex(p).Some? &&
    if StartsWith(LStrip(Concat(p)), Open) then
      CloseIndex(p).Some? &&
      out == Remainder(Concat(p[..CloseIndex(p).value + 1])) + p[CloseIndex(p).value + 1..]
    else
      out == Pending(Concat(p[..DecisionIndex(p).value])) + p[DecisionIndex(p).value..]
  }

  /** After the tokens `p` the text opens a think block that is still open. */
  ghost predicate InsideBlock(p: seq<string>) {
    DecisionIndex(p).Some? && StartsWith(LStrip(Concat(p)), Open) && CloseIndex(p).None?
  }

  /** The state of the corrected loop after the tokens `p`, and what it has yielded. */
  ghost predicate IntendedState(p: seq<string>, checkDone: bool, stripping: bool, buffer: string, out: seq<string>) {
    if checkDone then !stripping && buffer == [] && Decided(p, out)
    else if stripping then InsideBlock(p) && buffer == Concat(p) && out == []
    else DecisionIndex(p).None? && buffer == Concat(p) && out == []
  }

  /** The loop's state is the specification applied to the tokens seen so
      far, less what the end-of-stream flush would add. */
  lemma {:induction false} IntendedStateMeaning(p: seq<string>, checkDone: bool, stripping: bool, buffer: string, out: seq<string>)
    requires IntendedState(p, checkDone, stripping, buffer, out)
    ensures (if !checkDone && buffer != [] && !StartsWith(LStrip(buffer), Open) then out + [buffer] else out)
            == Intended(p)
  {
    DecisionSign(p);
    if !checkDone && !stripping {
      assert Intended(p) == Pending(Concat(p));
    }
  }

  /** An undecided buffer that now opens with `<think>` starts the block. */
  lemma {:induction false} StepOpens(tokens: seq<string>, i: nat, buffer: string, closed: bool, emitted: seq<string>)
    requires i < |tokens| && DecisionIndex(tokens[..i]).None?
    requires buffer == Concat(tokens[..i]) + tokens[i] && StartsWith(LStrip(buffer), Open)
    requires closed == HasClose(buffer) && emitted == if closed then Remainder(buffer) else []
    ensures closed ==> Decided(tokens[..i + 1], emitted)
    ensures !closed ==> InsideBlock(tokens[..i + 1]) && buffer == Concat(tokens[..i + 1]) && emitted == []
  {
    var p := tokens[..i + 1];
    PrefixConcat(tokens, i);
    DecisionIndexStep(tokens, i);
    assert DecisionIndex(p) == Some(i);
    NoCloseWhileUndecided(Concat(tokens[..i]));
    CloseIndexIffHasClose(tokens[..i]);
    CloseIndexStep(tokens, i);
    assert CloseIndex(p) == if closed then Some(i) else None;
    assert p[..i + 1] == p;
    assert p[i + 1..] == [];
  }

  /** A buffer that is still a partial `<think>` keeps waiting. */
  lemma {:induction false} StepWaits(tokens: seq<string>, i: nat, buffer: string)
    requires i < |tokens| && DecisionIndex(tokens[..i]).None?
    requires buffer == Concat(tokens[..i]) + tokens[i] && Undecided(buffer)
    ensures DecisionIndex(tokens[..i + 1]).None? && buffer == Concat(tokens[..i + 1])
  {
    PrefixConcat(tokens, i);
    DecisionIndexStep(tokens, i);
  }

  /** A buffer that can no longer open with `<think>` is yielded with the token. */
  lemma {:induction false} StepPasses(tokens: seq<string>, i: nat, out: seq<string>)
    requires i < |tokens| && DecisionIndex(tokens[..i]).None?
    requires !StartsWith(LStrip(Concat(tokens[..i]) + tokens[i]), Open)
    requires !StartsWith(Open, LStrip(Concat(tokens[..i]) + tokens[i]))
    requires out == Pending(Concat(tokens[..i])) + [tokens[i]]
    ensures Decided(tokens[..i + 1], out)
  {
    var p := tokens[..i + 1];
    PrefixConcat(tokens, i);
    DecisionIndexStep(tokens, i);
    assert DecisionIndex(p) == Some(i);
    assert !StartsWith(LStrip(Concat(p)), Open);
    assert p[..i] == tokens[..i];
    assert p[i..] == [tokens[i]];
  }

  /** A token inside the block joins the buffer, which is checked for `</think>`. */
  lemma {:induction false} StepStrips(tokens: seq<string>, i: nat, buffer: string, closed: bool, emitted: seq<string>)
    requires i < |tokens| && InsideBlock(tokens[..i])
    requires buffer == Concat(tokens[..i]) + tokens[i]
    requires closed == HasClose(buffer) && emitted == if closed then Remainder(buffer) else []
    ensures closed ==> Decided(tokens[..i + 1], emitted)
    ensures !closed ==> InsideBlock(tokens[..i + 1]) && buffer == Concat(tokens[..i + 1]) && emitted == []
  {
    var p := tokens[..i + 1];
    PrefixConcat(tokens, i);
    DecisionStable(tokens, i);
    assert DecisionIndex(p).Some? && StartsWith(LStrip(Concat(p)), Open);
    CloseIndexStep(tokens, i);
    assert CloseIndex(p) == if closed then Some(i) else None;
    assert p[..i + 1] == p;
    assert p[i + 1..] == [];
  }

  /** Once decided, a token is yielded as it is. */
  lemma {:induction false} StepDecided(tokens: seq<string>, i: nat, out: seq<string>)
    requires i < |tokens| && Decided(tokens[..i], out)
    ensures Decided(tokens[..i + 1], out + [tokens[i]])
  {
    DecisionStable(tokens, i);
    if StartsWith(LStrip(Concat(tokens[..i])), Open) {
      StepDecidedBlock(tokens, i, out);
    } else {
      StepDecidedPassed(tokens, i, out);
    }
  }

  lemma {:induction false} StepDecidedBlock(tokens: seq<string>, i: nat, out: seq<string>)
    requires i < |tokens| && Decided(tokens[..i], out) && StartsWith(LStrip(Concat(tokens[..i])), Open)
    requires DecisionIndex(tokens[..i + 1]).Some? && StartsWith(LStrip(Concat(tokens[..i + 1])), Open)
    ensures Decided(tokens[..i + 1], out + [tokens[i]])
  {
    CloseIndexStep(tokens, i);
    var k := CloseIndex(tokens[..i]).value;
    assert k < i;
    ExtendSlices(tokens, i, k + 1);
    var head := Remainder(Concat(tokens[..i][..k + 1]));
    assert Remainder(Concat(tokens[..i + 1][..k + 1])) == head;
    assert out + [tokens[i]] == head + (tokens[..i][k + 1..] + [tokens[i]]);
  }

  lemma {:induction false} StepDecidedPassed(tokens: seq<string>, i: nat, out: seq<string>)
    requires i < |tokens| && Decided(tokens[..i], out) && !StartsWith(LStrip(Concat(tokens[..i])), Open)
    requires DecisionIndex(tokens[..i + 1]) == DecisionIndex(tokens[..i])
    requires !StartsWith(LStrip(Concat(tokens[..i + 1])), Open)
    ensures Decided(tokens[..i + 1], out + [tokens[i]])
  {
    var j := DecisionIndex(tokens[..i]).value;
    ExtendSlices(tokens, i, j);
    assert out + [tokens[i]] == Pending(Concat(tokens[..i][..j])) + (tokens[..i][j..] + [tokens[i]]);
  }

  /** A token while the text is still undecided: the buffer either opens
      the block, stays a partial `<think>`, or is yielded with the token. */
  method FeedUndecided(tokens: seq<string>, i: nat, buffer: string)
    returns (checkDone': bool, stripping': bool, buffer': string, out': seq<string>)
    requires i < |tokens| && DecisionIndex(tokens[..i]).None? && buffer == Concat(tokens[..i])
    ensures IntendedState(tokens[..i + 1], checkDone', stripping', buffer', out')
  {
    var token := tokens[i];
    checkDone', stripping', buffer', out' := false, false, buffer, [];
    var potential := LStrip(buffer + token);
    if StartsWith(potential, Open) {
      stripping' := true;
      buffer' := buffer + token;
      var closed, emitted := CloseCheck(buffer');
      StepOpens(tokens, i, buffer', closed, emitted);
      if closed {
        checkDone', stripping', buffer' := true, false, "";
      }
      out' := emitted;
    } else if StartsWith(Open, potential) {
      buffer' := buffer + token;
      assert Undecided(buffer');
      StepWaits(tokens, i, buffer');
    } else {
      StepPasses(tokens, i, Pending(buffer) + [token]);
      if buffer != "" {
        out' := out' + [buffer];
      }
      out' := out' + [token];
      assert out' == Pending(buffer) + [token];
      checkDone' := true;
      buffer' := "";
    }
  }

  /** One token through the corrected filter: the body of its loop. */
  method Feed(tokens: seq<string>, i: nat, checkDone: bool, stripping: bool, buffer: string, out: seq<string>)
    returns (checkDone': bool, stripping': bool, buffer': string, out': seq<string>)
    requires i < |tokens| && IntendedState(tokens[..i], checkDone, stripping, buffer, out)
    ensures IntendedState(tokens[..i + 1], checkDone', stripping', buffer', out')
  {
    var token := tokens[i];
    if !checkDone {
      if !stripping {
        checkDone', stripping', buffer', out' := FeedUndecided(tokens, i, buffer);
      } else {
        checkDone', stripping', buffer' := false, true, buffer + token;
        var closed, emitted := CloseCheck(buffer');
        StepStrips(tokens, i, buffer', closed, emitted);
        if closed {
          checkDone', stripping', buffer' := true, false, "";
        }
        out' := out + emitted;
      }
    } else {
      StepDecided(tokens, i, out);
      checkDone', stripping', buffer', out' := checkDone, stripping, buffer, out + [token];
    }
  }

  /** The filter with the decision deferred while the text is a partial `<think>`. */
  method StripLeadingThink(tokens: seq<string>) returns (out: seq<string>)
    ensures out == Intended(tokens)
  {
    var checkDone := false;
    var stripping := false;
    var buffer := "";
    out := [];
    for i := 0 to |tokens|
      invariant IntendedState(tokens[..i], checkDone, stripping, buffer, out)
    {
      checkDone, stripping, buffer, out := Feed(tokens, i, checkDone, stripping, buffer, out);
    }
    assert tokens[..|tokens|] == tokens;
    IntendedStateMeaning(tokens, checkDone, stripping, buffer, out);
    if !checkDone && buffer != "" {
      if !StartsWith(LStrip(buffer), Open) {
        out := out + [buffer];
      }
    }
  }

  /** The decision index of a decided prefix is that of the whole stream. */
  lemma {:induction false} DecisionIndexStable(tokens: seq<string>, i: nat)
    requires i <= |tokens| && DecisionIndex(tokens[..i]).Some?
    ensures DecisionIndex(tokens) == DecisionIndex(tokens[..i])
    decreases |tokens| - i
  {
    if i == |tokens| {
      assert tokens[..i] == tokens;
    } else {
      DecisionIndexStep(tokens, i);
      DecisionIndexStable(tokens, i + 1);
    }
  }

  /** A text that does not open with `<think>` passes with its text intact,
      wherever the chunk boundaries fall. */
  lemma {:induction false} IntendedPassThrough(tokens: seq<string>)
    requires !StartsWith(LStrip(Concat(tokens)), Open)
    ensures Concat(Intended(tokens)) == Concat(tokens)
  {
    DecisionSign(tokens);
    if DecisionIndex(tokens).Some? {
      var j := DecisionIndex(tokens).value;
      ConcatSplit(tokens, j);
      ConcatAppend(Pending(Concat(tokens[..j])), tokens[j..]);
    }
  }

  /** A think block that never closes yields nothing at all. */
  lemma {:induction false} IntendedUnclosed(tokens: seq<string>)
    requires StartsWith(LStrip(Concat(tokens)), Open) && !HasClose(Concat(tokens))
    ensures Intended(tokens) == []
  {
    DecisionSign(tokens);
    CloseIndexIffHasClose(tokens);
  }

  /** A text opening with a closed think block is reduced to what follows
      the first `</think>`, less at most a blank piece at its start, and to
      exactly that when it starts with a visible character. */
  lemma {:induction false} IntendedClosedBlock(tokens: seq<string>)
    requires StartsWith(LStrip(Concat(tokens)), Open) && HasClose(Concat(tokens))
    ensures var a := AfterFirst(Concat(tokens), Close);
            var t := Concat(Intended(tokens));
            BlankThen(a, t) && (a == [] || !IsSpace(a[0]) ==> t == a)
  {
    DecisionSign(tokens);
    assert DecisionIndex(tokens).Some?;
    CloseIndexIffHasClose(tokens);
    var k := CloseIndex(tokens).value;
    assert CloseIndex(tokens) == Some(k);
    var out := Intended(tokens);
    assert out == BlockOutput(tokens);
    BlockRemainderText(tokens, k, BlockOutput(tokens));
    var a := AfterFirst(Concat(tokens), Close);
    var t := Concat(out);
    BlankThenVisible(a, t);
  }

  /** When the first token already decides, the correction changes nothing. */
  lemma {:induction false} IntendedAgreesWhenFirstTokenDecides(tokens: seq<string>)
    requires tokens != [] && !Undecided(tokens[0])
    ensures Intended(tokens) == Filtered(tokens)
  {
    assert tokens[..1] == [tokens[0]];
    assert Concat([tokens[0]]) == tokens[0] by {
      assert [tokens[0]][..0] == [];
    }
    DecisionIndexStep(tokens, 0);
    assert DecisionIndex(tokens[..1]) == Some(0);
    DecisionIndexStable(tokens, 1);
    assert DecisionIndex(tokens) == Some(0);
    DecisionSign(tokens);
    if OpensWithThink(tokens) {
      OpensText(tokens);
      assert Intended(tokens) == BlockOutput(tokens);
    } else {
      assert !StartsWith(LStrip(Concat(tokens)), Open);
      assert tokens[..0] == [] && tokens[0..] == tokens;
      assert Intended(tokens) == Pending(Concat([])) + tokens;
    }
  }

  /** The corrected filter removes the split think block of `SplitStream`. */
  lemma {:induction false} SplitStreamFixed()
    ensures Concat(Intended(SplitStream)) == "Visible answer"
  {
    SplitStreamOpensAndCloses();
    IntendedClosedBlock(SplitStream);
  }
}
