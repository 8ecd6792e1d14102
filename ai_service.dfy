/** Failover across the AI text-generation providers (`send_ai_request`).

    The module-level state of the source, the cursor `ai_chat_to_use` and the
    set `failed_ai_chats`, lives in the class `Failover`. The completion call
    to a provider is not made here: the caller passes, for every provider
    index, the reply that provider would give. Within one request the cursor
    visits each index at most once, so one reply per index is enough. */
module AiService {
  import opened Wrappers
  import opened PyStr

  /** What one provider gives back: an exception, `None`, a non-string or
      nothing at all (`NoReply`), or a string. */
  datatype Reply = NoReply | Text(text: string)

  /** The word a proposal's first line has to carry. */
  const Marker: string := "generated"

  /** Language-detection mode: the stripped reply is accepted when
      `len(resp.split()) == 1`, and returned as it is. */
  function AcceptLanguage(resp: string): Option<string>
  {
    if |Split(resp)| == 1 then Some(resp) else None
  }

  /** The proposal-mode test: `resp` has a first line, and it contains the
      marker once lower-cased. */
  predicate FirstLineMarked(resp: string) {
    var lines := SplitLines(resp);
    |lines| >= 1 && Contains(Lower(lines[0]), Marker)
  }

  /** Proposal mode: the first line of the stripped reply must contain the
      marker once lower-cased; that line is lower-cased, loses every marker
      and is trimmed, then the lines are joined and the whole is trimmed. */
  function AcceptProposal(resp: string): Option<string>
  {
    var lines := SplitLines(resp);
    if FirstLineMarked(resp) then
      var first := Strip(Replace(Lower(lines[0]), Marker, ""));
      Some(Strip(Join("\n", [first] + lines[1..])))
    else None
  }

  /** The check `send_ai_request` applies to one provider's reply; `None`
      means the provider is marked failed. An accepted proposal is trimmed
      at both ends; an accepted language name is the stripped reply, one
      word with no whitespace in it, and nothing else is accepted. */
  function Accept(strict: bool, reply: Reply): (r: Option<string>)
    ensures r.Some? ==> reply.Text? && IsStripped(r.value)
    ensures strict ==> (r.Some? <==> reply.Text? && FirstLineMarked(Strip(reply.text)))
    ensures !strict ==> (r.Some? <==> reply.Text? && Strip(reply.text) != [] && NoSpace(Strip(reply.text)))
    ensures !strict && r.Some? ==> r.value == Strip(reply.text)
  {
    match reply
    case NoReply => None
    case Text(response) =>
      if response == [] then None
      else
        var resp := Strip(response);
        SingleWord(resp);
        if strict then AcceptProposal(resp) else AcceptLanguage(resp)
  }

  /** What one request leaves behind: the text returned (`None` for the
      source's `False`), the new cursor and failed set, and the provider
      indices actually sent a request, in order. */
  datatype Outcome = Outcome(reply: Option<string>, cursor: nat, failed: set<nat>, queried: seq<nat>)

  /** The verdict of the check on every provider's reply. */
  function Verdicts(strict: bool, replies: seq<Reply>): (v: seq<Option<string>>)
    ensures |v| == |replies| && forall i :: 0 <= i < |replies| ==> v[i] == Accept(strict, replies[i])
  {
    seq(|replies|, i requires 0 <= i < |replies| => Accept(strict, replies[i]))
  }

  /** The cursor step: the next provider, wrapping round after the last. */
  function Next(cursor: nat, n: nat): (c: nat)
    requires cursor < n
    ensures c < n
  {
    if cursor + 1 < n then cursor + 1 else 0
  }

  /** The step is the source's `(cursor + 1) % n`. */
  lemma {:induction false} NextIsModulo(cursor: nat, n: nat)
    requires cursor < n
    ensures Next(cursor, n) == (cursor + 1) % n
  {
    if cursor + 1 == n {
      assert (cursor + 1) % n == 0;
    }
  }

  /** The request loop from attempt `attempts` on, over `n` providers whose
      replies the check judges as `verdicts`. */
  function Run(n: nat, cursor: nat, failed: set<nat>, verdicts: seq<Option<string>>, attempts: nat): (o: Outcome)
    requires |verdicts| == n && (cursor < n || n == 0) && attempts <= n
    ensures o.cursor < n || (n == 0 && o.cursor == cursor)
    ensures |o.queried| <= n - attempts
    ensures o.reply.None? ==> o.failed == {}
    decreases n - attempts
  {
    if attempts == n then Outcome(None, cursor, {}, [])
    else if cursor in failed then
      Run(n, Next(cursor, n), failed, verdicts, attempts + 1)
    else if verdicts[cursor].Some? then
      Outcome(verdicts[cursor], cursor, failed, [cursor])
    else
      var o := Run(n, Next(cursor, n), failed + {cursor}, verdicts, attempts + 1);
      o.(queried := [cursor] + o.queried)
  }

  /** What a request outcome `o` must satisfy when it began with `failed`
      marked: requests went only to providers not marked failed, every
      provider sent one was rejected except, on success, the last, whose
      accepted text is returned and on which the cursor stays, and on
      success exactly the rejected providers were added to the failed set. */
  ghost predicate Sound(n: nat, failed: set<nat>, verdicts: seq<Option<string>>, o: Outcome)
    requires |verdicts| == n
  {
    && (forall k :: 0 <= k < |o.queried| ==> o.queried[k] < n && o.queried[k] !in failed)
    && (o.reply.None? ==> forall k :: 0 <= k < |o.queried| ==> verdicts[o.queried[k]].None?)
    && (o.reply.Some? ==>
        && o.queried != [] && o.cursor == o.queried[|o.queried| - 1]
        && verdicts[o.cursor] == o.reply
        && (forall k :: 0 <= k < |o.queried| - 1 ==> verdicts[o.queried[k]].None?)
        && o.failed == failed + Elements(o.queried[..|o.queried| - 1]))
  }

  /** A request is sent only to providers not marked failed when the
      request began, and every provider sent one was rejected except, on
      success, the last, whose accepted text is returned and on which the
      cursor stays. Exactly the rejected providers join the failed set on
      success; on exhaustion the set is emptied. */
  lemma {:induction false} RunQueries(n: nat, cursor: nat, failed: set<nat>, verdicts: seq<Option<string>>, attempts: nat)
    requires |verdicts| == n && (cursor < n || n == 0) && attempts <= n
    ensures Sound(n, failed, verdicts, Run(n, cursor, failed, verdicts, attempts))
    decreases n - attempts
  {
    if attempts < n {
      var next := Next(cursor, n);
      if cursor in failed {
        RunQueries(n, next, failed, verdicts, attempts + 1);
      } else if verdicts[cursor].None? {
        RunQueries(n, next, failed + {cursor}, verdicts, attempts + 1);
        RejectedFirst(n, cursor, failed, verdicts, Run(n, next, failed + {cursor}, verdicts, attempts + 1));
      }
    }
  }

  /** A provider that rejected the prompt, queried before a sound outcome
      that began with it marked failed, keeps the outcome sound. */
  lemma {:induction false} RejectedFirst(n: nat, cursor: nat, failed: set<nat>, verdicts: seq<Option<string>>, o: Outcome)
    requires |verdicts| == n && cursor < n && cursor !in failed && verdicts[cursor].None?
    requires Sound(n, failed + {cursor}, verdicts, o)
    ensures Sound(n, failed, verdicts, o.(queried := [cursor] + o.queried))
  {
    var q := [cursor] + o.queried;
    forall k | 0 <= k < |q| ensures q[k] < n && q[k] !in failed {
      if k > 0 { assert q[k] == o.queried[k - 1]; }
    }
    if o.reply.Some? {
      assert q[..|q| - 1] == [cursor] + o.queried[..|o.queried| - 1];
      ElementsCons(cursor, o.queried[..|o.queried| - 1]);
    }
  }

  /** The set of the elements of `s`. */
  function Elements(s: seq<nat>): set<nat>
  {
    if s == [] then {} else {s[0]} + Elements(s[1..])
  }

  lemma {:induction false} ElementsCons(x: nat, s: seq<nat>)
    ensures Elements([x] + s) == {x} + Elements(s)
  {
    assert ([x] + s)[1..] == s;
  }

  /** The index reached `k` single steps after `c0` on a ring of `n`. */
  function Rot(c0: nat, k: nat, n: nat): (i: nat)
    requires c0 < n && k <= n
    ensures i < n || (k == n && i == c0)
  {
    if c0 + k < n then c0 + k else c0 + k - n
  }

  /** How many single steps from `c0` it takes to reach index `i`. */
  function Offset(c0: nat, i: nat, n: nat): (k: nat)
    requires c0 < n && i < n
    ensures k < n && Rot(c0, k, n) == i
  {
    if i >= c0 then i - c0 else i + n - c0
  }

  lemma {:induction false} StepIsRot(c0: nat, k: nat, n: nat)
    requires c0 < n && k < n
    ensures Next(Rot(c0, k, n), n) == Rot(c0, k + 1, n)
  {
  }

  /** What a request from step `a` on must leave behind when it fails:
      the cursor back at `c0` and a request sent to every provider still
      due, one not marked failed at entry whose turn comes at step `a` or
      later. */
  ghost predicate Covers(n: nat, c0: nat, failed: set<nat>, a: nat, o: Outcome)
    requires c0 < n
  {
    o.reply.None? ==>
      && o.cursor == c0
      && forall i :: 0 <= i < n && i !in failed && Offset(c0, i, n) >= a ==> i in o.queried
  }

  /** From step `a` on, with only providers tried at earlier steps added to
      the failed set, a request that fails covers every provider still due. */
  lemma {:induction false} RunFromStep(n: nat, c0: nat, failed: set<nat>, tried: set<nat>, verdicts: seq<Option<string>>, a: nat)
    requires c0 < n && a <= n && |verdicts| == n
    requires forall i :: i in tried ==> i < n && Offset(c0, i, n) < a
    ensures Covers(n, c0, failed, a, Run(n, Rot(c0, a, n), failed + tried, verdicts, a))
    decreases n - a, 1
  {
    if a < n {
      var cur := Rot(c0, a, n);
      if cur in failed + tried {
        SkippedStep(n, c0, failed, tried, verdicts, a);
      } else if verdicts[cur].None? {
        RejectedStep(n, c0, failed, tried, verdicts, a);
      } else {
        RunTurn(n, cur, failed + tried, verdicts, a);
      }
    }
  }

  /** The step of `RunFromStep` at a provider marked failed. */
  lemma {:induction false} SkippedStep(n: nat, c0: nat, failed: set<nat>, tried: set<nat>, verdicts: seq<Option<string>>, a: nat)
    requires c0 < n && a < n && |verdicts| == n
    requires forall i :: i in tried ==> i < n && Offset(c0, i, n) < a
    requires Rot(c0, a, n) in failed + tried
    ensures Covers(n, c0, failed, a, Run(n, Rot(c0, a, n), failed + tried, verdicts, a))
    decreases n - a, 0
  {
    var cur := Rot(c0, a, n);
    StepIsRot(c0, a, n);
    RunTurn(n, cur, failed + tried, verdicts, a);
    RunFromStep(n, c0, failed, tried, verdicts, a + 1);
    assert Offset(c0, cur, n) == a;
    assert cur in failed;
    forall i | 0 <= i < n && i !in failed && Offset(c0, i, n) == a
      ensures i == cur
    {
    }
  }

  /** The step of `RunFromStep` at a provider that rejects the prompt. */
  lemma {:induction false} RejectedStep(n: nat, c0: nat, failed: set<nat>, tried: set<nat>, verdicts: seq<Option<string>>, a: nat)
    requires c0 < n && a < n && |verdicts| == n
    requires forall i :: i in tried ==> i < n && Offset(c0, i, n) < a
    requires Rot(c0, a, n) !in failed + tried && verdicts[Rot(c0, a, n)].None?
    ensures Covers(n, c0, failed, a, Run(n, Rot(c0, a, n), failed + tried, verdicts, a))
    decreases n - a, 0
  {
    var cur := Rot(c0, a, n);
    StepIsRot(c0, a, n);
    RunTurn(n, cur, failed + tried, verdicts, a);
    assert Offset(c0, cur, n) == a;
    assert failed + tried + {cur} == failed + (tried + {cur});
    RunFromStep(n, c0, failed, tried + {cur}, verdicts, a + 1);
    var o := Run(n, Next(cur, n), failed + tried + {cur}, verdicts, a + 1);
    var q := [cur] + o.queried;
    assert q[0] == cur;
    forall i | i in o.queried ensures i in q {
      var k :| 0 <= k < |o.queried| && o.queried[k] == i;
      assert q[k + 1] == i;
    }
  }

  /** A request every provider fails (full-rotation exhaustion) empties the
      failed set, leaves the cursor where the request found it, and has sent
      a request to exactly the providers not marked failed at entry. */
  lemma {:induction false} ExhaustionResets(n: nat, cursor: nat, failed: set<nat>, verdicts: seq<Option<string>>)
    requires cursor < n && |verdicts| == n
    ensures var o := Run(n, cursor, failed, verdicts, 0);
      o.reply.None? ==>
        && o.failed == {} && o.cursor == cursor
        && forall i :: 0 <= i < n ==> (i in o.queried <==> i !in failed)
  {
    var o := Run(n, cursor, failed, verdicts, 0);
    assert failed + {} == failed;
    RunFromStep(n, cursor, failed, {}, verdicts, 0);
    RunQueries(n, cursor, failed, verdicts, 0);
    forall i | 0 <= i < n && i in o.queried ensures i !in failed {
      var k :| 0 <= k < |o.queried| && o.queried[k] == i;
    }
  }

  /** After exhaustion the next request starts at the same provider, now
      unmarked, and sends it a request. */
  lemma {:induction false} ExhaustionRetriesFirstProvider(n: nat, cursor: nat, failed: set<nat>, verdicts: seq<Option<string>>,
                                        verdicts': seq<Option<string>>)
    requires cursor < n && |verdicts| == n && |verdicts'| == n
    requires Run(n, cursor, failed, verdicts, 0).reply.None?
    ensures var o := Run(n, cursor, failed, verdicts, 0);
      var o' := Run(n, o.cursor, o.failed, verdicts', 0);
      o'.queried != [] && o'.queried[0] == cursor
  {
    ExhaustionResets(n, cursor, failed, verdicts);
  }

  /** The indices `0..k-1`. */
  function Below(k: nat): (s: set<nat>)
    ensures forall i: nat :: i in s <==> i < k
  {
    if k == 0 then {} else Below(k - 1) + {k - 1}
  }

  /** The indices `j..k-1`, in order. */
  function Span(j: nat, k: nat): seq<nat>
    decreases k - j
  {
    if j >= k then [] else [j] + Span(j + 1, k)
  }

  /** Starting at provider 0 with nothing marked failed, when providers
      0..k-1 give rejected replies and provider k an accepted one, the
      request returns provider k's text, marks exactly 0..k-1 failed and
      leaves the cursor on k, the provider that answered. */
  lemma {:induction false} FirstAcceptedWins(n: nat, k: nat, verdicts: seq<Option<string>>, j: nat)
    requires k < n && |verdicts| == n && j <= k
    requires forall i :: 0 <= i < k ==> verdicts[i].None?
    requires verdicts[k].Some?
    ensures Run(n, j, Below(j), verdicts, j) == Outcome(verdicts[k], k, Below(k), Span(j, k + 1))
    decreases k - j
  {
    if j < k {
      assert Below(j) + {j} == Below(j + 1);
      FirstAcceptedWins(n, k, verdicts, j + 1);
    }
  }

  /** Lower-casing gives the marker only for a spelling of it in letters. */
  lemma {:induction false} MarkerSpelling(marker: string)
    requires Lower(marker) == Marker
    ensures |marker| == |Marker| && !IsSpace(marker[0])
    ensures forall i :: 0 <= i < |marker| ==> !IsLineBreak(marker[i])
  {
    forall i | 0 <= i < |marker| ensures 'A' <= marker[i] <= 'z' {
      assert LowerChar(marker[i]) == Marker[i];
    }
  }

  lemma {:induction false} ProposalOfMarkedLines(marker: string, body: string)
    requires Lower(marker) == Marker
    requires body != [] && IsStripped(body)
    requires OnlyNewlineBreaks(body)
    ensures AcceptProposal(marker + "\n" + body) == Some(body)
  {
    MarkerSpelling(marker);
    SplitLinesOfHead(marker, body);
    var lines := SplitLines(marker + "\n" + body);
    var ls := SplitLines(body);
    assert lines[0] == marker && lines[1..] == ls;
    MarkerLineVanishes(marker);
    JoinAfterEmpty(body);
    StripSpacePrefix("\n", body);
  }

  /** The strict-mode rule on any reply whose first line `first` mentions
      the marker in any letter case: that line is lower-cased, loses every
      marker and is trimmed, the lines of `body` after it are kept as they
      are, and the whole is trimmed. */
  lemma {:induction false} ProposalOfMarkedFirstLine(first: string, body: string)
    requires first != [] && !IsSpace(first[0])
    requires forall i :: 0 <= i < |first| ==> !IsLineBreak(first[i])
    requires Contains(Lower(first), Marker)
    requires body != [] && IsStripped(body) && OnlyNewlineBreaks(body)
    ensures Accept(true, Text(first + "\n" + body))
      == Some(Strip(Strip(Replace(Lower(first), Marker, "")) + "\n" + body))
  {
    var raw := first + "\n" + body;
    assert raw[0] == first[0] && raw[|raw| - 1] == body[|body| - 1];
    StripOfStripped(raw);
    SplitLinesOfHead(first, body);
    var f := Strip(Replace(Lower(first), Marker, ""));
    JoinSplitLines(body);
    JoinCons("\n", f, SplitLines(body));
  }

  /** Joining an empty first line in front of the lines of `body` puts a
      line break in front of `body`. */
  lemma {:induction false} JoinAfterEmpty(body: string)
    requires body != [] && body[|body| - 1] != '\n'
    requires OnlyNewlineBreaks(body)
    ensures Join("\n", [""] + SplitLines(body)) == "\n" + body
  {
    JoinSplitLines(body);
    JoinCons("\n", "", SplitLines(body));
    assert "" + "\n" + body == "\n" + body;
  }

  /** The marker line passes the first-line check and is cleaned down to
      nothing. */
  lemma {:induction false} MarkerLineVanishes(marker: string)
    requires Lower(marker) == Marker
    ensures Contains(Lower(marker), Marker) && Strip(Replace(Lower(marker), Marker, "")) == ""
  {
    assert StartsWith(Marker, Marker);
    assert Replace(Marker, Marker, "") == "";
    assert Strip("") == "";
  }

  /** The strict-mode scenario: a reply whose first line is the marker in
      any letter case and whose remaining text `body` is trimmed and broken
      only by `\n` is accepted, and the proposal returned is exactly `body`. */
  lemma {:induction false} ProposalAfterMarkerLine(marker: string, body: string)
    requires Lower(marker) == Marker
    requires body != [] && IsStripped(body)
    requires OnlyNewlineBreaks(body)
    ensures Accept(true, Text(marker + "\n" + body)) == Some(body)
  {
    var raw := marker + "\n" + body;
    MarkerSpelling(marker);
    assert raw[0] == marker[0] && raw[|raw| - 1] == body[|body| - 1];
    StripOfStripped(raw);
    ProposalOfMarkedLines(marker, body);
  }

  lemma {:induction false} SplitLinesOfOneLine(line: string)
    requires line != [] && forall i :: 0 <= i < |line| ==> !IsLineBreak(line[i])
    ensures SplitLines(line) == [line]
  {
    LineLengthAtLeast(line, |line|);
  }

  /** A reply that is only the marker line, in any letter case, is accepted
      as an empty proposal. */
  lemma {:induction false} MarkerOnlyGivesEmptyProposal(marker: string)
    requires Lower(marker) == Marker
    ensures Accept(true, Text(marker)) == Some("")
  {
    MarkerSpelling(marker);
    assert marker[|marker| - 1] == 'd' || marker[|marker| - 1] == 'D' by {
      assert LowerChar(marker[8]) == 'd';
    }
    StripOfStripped(marker);
    ProposalOfMarkerLine(marker);
  }

  lemma {:induction false} ProposalOfMarkerLine(marker: string)
    requires Lower(marker) == Marker
    ensures AcceptProposal(marker) == Some("")
  {
    MarkerSpelling(marker);
    SplitLinesOfOneLine(marker);
    MarkerLineVanishes(marker);
    assert Join("\n", [""]) == "";
  }

  /** The language-mode scenario: a two-word reply is rejected. */
  lemma TwoWordsRejected()
    ensures Accept(false, Text("english extra")).None?
  {
    var s := "english extra";
    assert s[7] == ' ';
    assert IsStripped(s);
    StripOfStripped(s);
  }

  /** The outcome `o` of the attempts still to come, after requests to
      `done` were already sent. */
  function AfterQueries(done: seq<nat>, o: Outcome): Outcome {
    o.(queried := done + o.queried)
  }

  lemma {:induction false} QueriedOne(done: seq<nat>, c: nat, o: Outcome)
    ensures AfterQueries(done, o.(queried := [c] + o.queried)) == AfterQueries(done + [c], o)
    ensures AfterQueries(done, Outcome(o.reply, c, o.failed, [c])) == Outcome(o.reply, c, o.failed, done + [c])
  {
    assert done + ([c] + o.queried) == (done + [c]) + o.queried;
  }

  /** One attempt of the request loop. */
  lemma {:induction false} RunTurn(n: nat, cursor: nat, failed: set<nat>, verdicts: seq<Option<string>>, attempts: nat)
    requires |verdicts| == n && cursor < n && attempts < n
    ensures Run(n, cursor, failed, verdicts, attempts) ==
      if cursor in failed then Run(n, Next(cursor, n), failed, verdicts, attempts + 1)
      else if verdicts[cursor].Some? then Outcome(verdicts[cursor], cursor, failed, [cursor])
      else
        var o := Run(n, Next(cursor, n), failed + {cursor}, verdicts, attempts + 1);
        o.(queried := [cursor] + o.queried)
  {
  }

  /** The rotation state of `send_ai_request`: `cursor` is
      `config.ai_chat_to_use`, `failed` is `config.failed_ai_chats`, and
      `count` is the length of `config.ai_chats`. */
  class Failover {
    const count: nat
    var cursor: nat
    var failed: set<nat>

    ghost predicate Valid()
      reads this
    {
      cursor < count || (count == 0 && cursor == 0)
    }

    constructor (count: nat)
      ensures Valid() && this.count == count && cursor == 0 && failed == {}
    {
      this.count := count;
      cursor := 0;
      failed := {};
    }

    /** `send_ai_request(prompt, strict)`, with `replies[i]` the reply
        provider `i` gives to the prompt. */
    method SendAiRequest(strict: bool, replies: seq<Reply>) returns (r: Option<string>, ghost queried: seq<nat>)
      requires Valid() && |replies| == count
      modifies this
      ensures Valid()
      ensures Run(count, old(cursor), old(failed), Verdicts(strict, replies), 0) == Outcome(r, cursor, failed, queried)
    {
      ghost var verdicts := Verdicts(strict, replies);
      ghost var whole := Run(count, cursor, failed, verdicts, 0);
      var attempts := 0;
      queried := [];
      assert whole == AfterQueries([], whole);
      while attempts < count
        invariant attempts <= count && Valid()
        invariant whole == AfterQueries(queried, Run(count, cursor, failed, verdicts, attempts))
        decreases count - attempts
      {
        RunTurn(count, cursor, failed, verdicts, attempts);
        if cursor in failed {
          cursor := Next(cursor, count);
          attempts := attempts + 1;
          continue;
        }
        var accepted := Accept(strict, replies[cursor]);
        QueriedOne(queried, cursor, Run(count, Next(cursor, count), failed + {cursor}, verdicts, attempts + 1));
        queried := queried + [cursor];
        if accepted.Some? {
          return accepted, queried;
        }
        failed := failed + {cursor};
        cursor := Next(cursor, count);
        attempts := attempts + 1;
      }
      failed := {};
      r := None;
    }
  }
}
