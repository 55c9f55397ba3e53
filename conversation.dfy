/** Building, bounding and returning the message list of one request. */
module Conversation {
  import opened Wrappers
  import opened Messages
  import opened Numbers

  /** Bound on the assembled message list, system prefix included. */
  const MAX_HISTORY_LENGTH: nat := 20

  /** The three fixed system directives. Only their role, number and order matter here;
      their wording is abbreviated. */
  const SystemPrefix: seq<Message> := [
    Message(System, Some("general assistant: capabilities and rules"), None, None, None),
    Message(System, Some("how to handle weather requests"), None, None, None),
    Message(System, Some("process for activity suggestions"), None, None, None)
  ]

  lemma SystemPrefixShape()
    ensures |SystemPrefix| == 3
    ensures forall k :: 0 <= k < |SystemPrefix| ==> SystemPrefix[k].role == System
  {
  }

  /** `[...systemMessages, ...history, { role: "user", content: query }]` */
  function Assemble(history: seq<Message>, query: Option<string>): (r: seq<Message>)
    ensures |r| == |SystemPrefix| + |history| + 1
    ensures r[..|SystemPrefix|] == SystemPrefix
    ensures r[|SystemPrefix|..|r| - 1] == history
    ensures r[|r| - 1] == UserMessage(query)
    // re-submitting a returned history re-creates the prefix exactly once
    ensures r[|SystemPrefix|..] == history + [UserMessage(query)]
  {
    SystemPrefix + history + [UserMessage(query)]
  }

  /** `Array.prototype.splice(start, deleteCount)` for non-negative arguments: both are clamped
      to the array, and the result is what is left in the array. */
  function Splice<T>(s: seq<T>, start: nat, deleteCount: nat): (r: seq<T>)
    ensures |r| == |s| - Min(deleteCount, |s| - Min(start, |s|))
    ensures r[..Min(start, |s|)] == s[..Min(start, |s|)]
    ensures r[Min(start, |s|)..] == s[Min(start, |s|) + Min(deleteCount, |s| - Min(start, |s|))..]
  {
    var from := Min(start, |s|);
    var count := Min(deleteCount, |s| - from);
    s[..from] + s[from + count..]
  }

  /** The list after the truncation step: when it is longer than the bound, the oldest entries
      right after the system prefix are spliced out. */
  function Truncated(m: seq<Message>): (r: seq<Message>)
    ensures |m| <= MAX_HISTORY_LENGTH ==> r == m
    ensures |m| > MAX_HISTORY_LENGTH ==>
      |r| == MAX_HISTORY_LENGTH &&
      r[..|SystemPrefix|] == m[..|SystemPrefix|] &&
      r[|SystemPrefix|..] == m[|m| - (MAX_HISTORY_LENGTH - |SystemPrefix|)..]
  {
    if |m| > MAX_HISTORY_LENGTH then Splice(m, |SystemPrefix|, |m| - MAX_HISTORY_LENGTH) else m
  }

  /** Truncating an assembled list keeps the system prefix and the new user message, keeps
      the newest part of the caller's history, and never exceeds the bound. */
  lemma TruncatedAssembly(history: seq<Message>, query: Option<string>)
    ensures var r := Truncated(Assemble(history, query));
      |r| == Min(MAX_HISTORY_LENGTH, |SystemPrefix| + |history| + 1) &&
      r[..|SystemPrefix|] == SystemPrefix &&
      r[|r| - 1] == UserMessage(query) &&
      r[|SystemPrefix|..|r| - 1] == history[|history| - (|r| - |SystemPrefix| - 1)..]
  {
    var m := Assemble(history, query);
    var r := Truncated(m);
    if |m| > MAX_HISTORY_LENGTH {
      var keep := MAX_HISTORY_LENGTH - |SystemPrefix|;
      assert r[|SystemPrefix|..] == m[|m| - keep..];
      assert m[|SystemPrefix|..] == history + [UserMessage(query)];
      assert r[|r| - 1] == m[|m| - 1];
      calc {
        r[|SystemPrefix|..|r| - 1];
        m[|m| - keep..|m| - 1];
        (history + [UserMessage(query)])[|history| - (keep - 1)..|history|];
        history[|history| - (keep - 1)..];
      }
    }
  }

  /** `messages.filter(m => m.role !== 'system')` */
  function NonSystem(ms: seq<Message>): (r: seq<Message>)
    ensures |r| <= |ms|
    ensures forall k :: 0 <= k < |r| ==> r[k].role != System
  {
    if ms == [] then []
    else NonSystem(ms[..|ms| - 1]) + (if ms[|ms| - 1].role != System then [ms[|ms| - 1]] else [])
  }

  /** The filter keeps exactly the non-system messages. */
  lemma {:induction false} NonSystemMembers(ms: seq<Message>)
    ensures forall m :: m in NonSystem(ms) <==> m in ms && m.role != System
    decreases |ms|
  {
    if ms != [] {
      var front := ms[..|ms| - 1];
      NonSystemMembers(front);
      assert ms == front + [ms[|ms| - 1]];
    }
  }

  lemma {:induction false} NonSystemAppend(a: seq<Message>, b: seq<Message>)
    ensures NonSystem(a + b) == NonSystem(a) + NonSystem(b)
    decreases |b|
  {
    if b == [] {
      assert a + b == a;
    } else {
      var b' := b[..|b| - 1];
      assert (a + b)[..|a + b| - 1] == a + b';
      NonSystemAppend(a, b');
    }
  }

  /** `xs.slice(-n)`: the last `n` elements, or all of them when there are fewer. As `-0` is
      `0`, `slice(-0)` copies the whole list. */
  function LastN<T>(xs: seq<T>, n: nat): (r: seq<T>)
    ensures n == 0 ==> r == xs
    ensures n > 0 ==> |r| == Min(n, |xs|)
    ensures r == xs[|xs| - |r|..]
  {
    if n == 0 || |xs| <= n then xs else xs[|xs| - n..]
  }

  /** The history handed back to the caller:
      `messages.filter(m => m.role !== 'system').slice(systemMessages.length * -1)`. */
  function ReturnedHistory(ms: seq<Message>): (r: seq<Message>)
    ensures |r| <= |SystemPrefix|
    ensures forall k :: 0 <= k < |r| ==> r[k].role != System
    ensures |r| == Min(|SystemPrefix|, |NonSystem(ms)|)
    ensures r == NonSystem(ms)[|NonSystem(ms)| - |r|..]
  {
    LastN(NonSystem(ms), |SystemPrefix|)
  }

  /** Whatever non-system messages end the list are the ones returned, newest last. */
  lemma ReturnedHistoryEnd(ms: seq<Message>, tail: seq<Message>)
    requires forall k :: 0 <= k < |tail| ==> tail[k].role != System
    requires |tail| <= |SystemPrefix|
    ensures var r := ReturnedHistory(ms + tail);
      |tail| <= |r| && r[|r| - |tail|..] == tail
  {
    NonSystemAppend(ms, tail);
    NonSystemOfNonSystem(tail);
  }

  lemma {:induction false} NonSystemOfSystem(ms: seq<Message>)
    requires forall k :: 0 <= k < |ms| ==> ms[k].role == System
    ensures NonSystem(ms) == []
    decreases |ms|
  {
    if ms != [] {
      NonSystemOfSystem(ms[..|ms| - 1]);
    }
  }

  /** Filtering a list made of the system prefix and non-system messages leaves the latter. */
  lemma NonSystemAfterPrefix(tail: seq<Message>)
    requires forall k :: 0 <= k < |tail| ==> tail[k].role != System
    ensures NonSystem(SystemPrefix + tail) == tail
  {
    NonSystemAppend(SystemPrefix, tail);
    NonSystemOfNonSystem(tail);
    PrefixFiltered();
  }

  lemma PrefixFiltered()
    ensures NonSystem(SystemPrefix) == []
  {
    SystemPrefixShape();
    NonSystemOfSystem(SystemPrefix);
  }

  lemma {:induction false} NonSystemOfNonSystem(tail: seq<Message>)
    requires forall k :: 0 <= k < |tail| ==> tail[k].role != System
    ensures NonSystem(tail) == tail
    decreases |tail|
  {
    if tail != [] {
      NonSystemOfNonSystem(tail[..|tail| - 1]);
      assert tail[..|tail| - 1] + [tail[|tail| - 1]] == tail;
    }
  }
}
