/**
 * The bounded message buffer of the local agent framework (`local_agent/memory.py`).
 * Appending past the limit trims the history: system messages are kept and the oldest
 * non-system messages are dropped.
 */
module LocalMemory {
  import opened Text
  import opened Messages

  predicate IsSystem(m: Message) {
    m.role == "system"
  }

  /** `[msg for msg in h if msg["role"] == "system"]` */
  function SystemOnly(h: seq<Message>): seq<Message> {
    if |h| == 0 then []
    else SystemOnly(h[..|h| - 1]) + (if IsSystem(h[|h| - 1]) then [h[|h| - 1]] else [])
  }

  /** `[msg for msg in h if msg["role"] != "system"]` */
  function NonSystem(h: seq<Message>): seq<Message> {
    if |h| == 0 then []
    else NonSystem(h[..|h| - 1]) + (if IsSystem(h[|h| - 1]) then [] else [h[|h| - 1]])
  }

  /** The history after `add_message` appended `m` to `h` with limit `max`. */
  function AfterAdd(h: seq<Message>, m: Message, max: int): seq<Message> {
    var h' := h + [m];
    if |h'| > max then
      var keep := max - |SystemOnly(h')|;
      if keep > 0 then SystemOnly(h') + PyTail(NonSystem(h'), keep)
      else PyTail(SystemOnly(h'), max)
    else h'
  }

  /** `get_last_messages(count)`: `h[-count:]` for a positive count, otherwise nothing. */
  function LastMessages(h: seq<Message>, count: int): seq<Message> {
    if count > 0 then PyTail(h, count) else []
  }

  ghost predicate IsSuffix<T>(a: seq<T>, b: seq<T>) {
    |a| <= |b| && b[|b| - |a|..] == a
  }

  // ---------------------------------------------------------------------------------------------
  // Facts about the two partitions

  lemma SplitLast(h: seq<Message>, m: Message)
    ensures SystemOnly(h + [m]) == SystemOnly(h) + (if IsSystem(m) then [m] else [])
    ensures NonSystem(h + [m]) == NonSystem(h) + (if IsSystem(m) then [] else [m])
  {
    assert (h + [m])[..|h|] == h;
  }

  lemma {:induction false} PartitionAppend(a: seq<Message>, b: seq<Message>)
    ensures SystemOnly(a + b) == SystemOnly(a) + SystemOnly(b)
    ensures NonSystem(a + b) == NonSystem(a) + NonSystem(b)
    decreases |b|
  {
    if |b| == 0 {
      assert a + b == a;
    } else {
      var b0 := b[..|b| - 1];
      var x := b[|b| - 1];
      assert a + b == (a + b0) + [x];
      assert b == b0 + [x];
      SplitLast(a + b0, x);
      SplitLast(b0, x);
      PartitionAppend(a, b0);
    }
  }

  lemma {:induction false} PartitionSize(h: seq<Message>)
    ensures |SystemOnly(h)| + |NonSystem(h)| == |h|
  {
    if |h| > 0 { PartitionSize(h[..|h| - 1]); }
  }

  lemma {:induction false} SystemOnlyShape(h: seq<Message>)
    ensures forall i :: 0 <= i < |SystemOnly(h)| ==> IsSystem(SystemOnly(h)[i])
    ensures forall i :: 0 <= i < |NonSystem(h)| ==> !IsSystem(NonSystem(h)[i])
  {
    if |h| > 0 { SystemOnlyShape(h[..|h| - 1]); }
  }

  /** Filtering a list that holds only system messages keeps all of it and drops nothing. */
  lemma {:induction false} PartitionOfSystem(h: seq<Message>)
    requires forall i :: 0 <= i < |h| ==> IsSystem(h[i])
    ensures SystemOnly(h) == h && NonSystem(h) == []
  {
    if |h| > 0 {
      var init, x := h[..|h| - 1], h[|h| - 1];
      assert h == init + [x];
      assert forall i :: 0 <= i < |init| ==> init[i] == h[i];
      PartitionOfSystem(init);
      SplitLast(init, x);
    }
  }

  /** Filtering a list that holds no system message keeps all of it as non-system messages. */
  lemma {:induction false} PartitionOfNonSystem(h: seq<Message>)
    requires forall i :: 0 <= i < |h| ==> !IsSystem(h[i])
    ensures NonSystem(h) == h && SystemOnly(h) == []
  {
    if |h| > 0 {
      var init, x := h[..|h| - 1], h[|h| - 1];
      assert h == init + [x];
      assert forall i :: 0 <= i < |init| ==> init[i] == h[i];
      PartitionOfNonSystem(init);
      SplitLast(init, x);
    }
  }

  /** A suffix of a list whose messages are all (or all not) system messages is one too. */
  lemma TailUniform(s: seq<Message>, k: int, system: bool)
    requires forall i :: 0 <= i < |s| ==> IsSystem(s[i]) == system
    ensures forall i :: 0 <= i < |PyTail(s, k)| ==> IsSystem(PyTail(s, k)[i]) == system
  {
    var d := |s| - |PyTail(s, k)|;
    DropUniform(s, d, system);
  }

  lemma DropUniform(s: seq<Message>, d: nat, system: bool)
    requires d <= |s|
    requires forall i :: 0 <= i < |s| ==> IsSystem(s[i]) == system
    ensures forall i :: 0 <= i < |s| - d ==> IsSystem(s[d..][i]) == system
  {
    forall i | 0 <= i < |s| - d
      ensures IsSystem(s[d..][i]) == system
    {
      assert s[d..][i] == s[d + i];
    }
  }

  /** The partitions of a suffix of a partition. */
  lemma PartitionOfSystemTail(h: seq<Message>, k: int)
    ensures SystemOnly(PyTail(SystemOnly(h), k)) == PyTail(SystemOnly(h), k)
    ensures NonSystem(PyTail(SystemOnly(h), k)) == []
    ensures NonSystem(PyTail(NonSystem(h), k)) == PyTail(NonSystem(h), k)
    ensures SystemOnly(PyTail(NonSystem(h), k)) == []
  {
    SystemOnlyShape(h);
    TailUniform(SystemOnly(h), k, true);
    TailUniform(NonSystem(h), k, false);
    PartitionOfSystem(PyTail(SystemOnly(h), k));
    PartitionOfNonSystem(PyTail(NonSystem(h), k));
  }

  // ---------------------------------------------------------------------------------------------
  // What add_message promises

  /** Without overflow the message is appended and nothing else changes. */
  lemma AddWithoutOverflow(h: seq<Message>, m: Message, max: int)
    requires |h| + 1 <= max
    ensures AfterAdd(h, m, max) == h + [m]
  {
  }

  /** With a limit of at least one, the history never exceeds it; an overflowing add lands exactly on it. */
  lemma AddRespectsLimit(h: seq<Message>, m: Message, max: int)
    requires max >= 1
    ensures |AfterAdd(h, m, max)| <= max
    ensures |h| + 1 > max ==> |AfterAdd(h, m, max)| == max
  {
    PartitionSize(h + [m]);
  }

  /** With a limit of zero every system message survives and every other message is dropped. */
  lemma AddWithZeroLimit(h: seq<Message>, m: Message)
    ensures AfterAdd(h, m, 0) == SystemOnly(h + [m])
  {
  }

  /** Overflow with room left after the system messages: all system messages in their order,
      then the `keep` most recent other messages, `max` messages in all. */
  lemma AddOverflowKeepsRecent(h: seq<Message>, m: Message, max: int)
    requires |h| + 1 > max
    requires max - |SystemOnly(h + [m])| > 0
    ensures var r := AfterAdd(h, m, max);
            var keep := max - |SystemOnly(h + [m])|;
            && |r| == max
            && r[..|SystemOnly(h + [m])|] == SystemOnly(h + [m])
            && r[|SystemOnly(h + [m])|..] == NonSystem(h + [m])[|NonSystem(h + [m])| - keep..]
  {
    var h' := h + [m];
    var s, n := SystemOnly(h'), NonSystem(h');
    var keep := max - |s|;
    assert keep <= |n| by { PartitionSize(h'); }
    assert AfterAdd(h, m, max) == s + PyTail(n, keep);
    ConcatParts(s, PyTail(n, keep));
  }

  lemma ConcatParts<T>(a: seq<T>, b: seq<T>)
    ensures |a + b| == |a| + |b| && (a + b)[..|a|] == a && (a + b)[|a|..] == b
  {
  }

  /** Overflow when the system messages alone fill the limit: only the last `max` system
      messages survive and every other message, the new one included, is dropped. */
  lemma AddOverflowSystemsFill(h: seq<Message>, m: Message, max: int)
    requires max >= 1 && |h| + 1 > max
    requires max - |SystemOnly(h + [m])| <= 0
    ensures var r := AfterAdd(h, m, max);
            && |r| == max
            && r == SystemOnly(h + [m])[|SystemOnly(h + [m])| - max..]
            && NonSystem(r) == []
            && (!IsSystem(m) ==> m !in r)
  {
    PartitionOfSystemTail(h + [m], max);
    SystemOnlyShape(h + [m]);
  }

  /** The two partitions of the history after `add_message`, case by case. */
  lemma AddPartitions(h: seq<Message>, m: Message, max: int)
    ensures var h' := h + [m];
            var s := SystemOnly(h');
            var n := NonSystem(h');
            var r := AfterAdd(h, m, max);
            && (|h'| <= max ==> SystemOnly(r) == s && NonSystem(r) == n)
            && (|h'| > max && max - |s| > 0 ==> SystemOnly(r) == s && NonSystem(r) == PyTail(n, max - |s|))
            && (|h'| > max && max - |s| <= 0 ==> SystemOnly(r) == PyTail(s, max) && NonSystem(r) == [])
  {
    var h' := h + [m];
    var s := SystemOnly(h');
    var n := NonSystem(h');
    if |h'| > max {
      var keep := max - |s|;
      if keep > 0 {
        var t := PyTail(n, keep);
        PartitionAppend(s, t);
        PartitionOfSystemTail(h', 0);
        PartitionOfSystemTail(h', keep);
      } else {
        PartitionOfSystemTail(h', max);
      }
    }
  }

  /** Trimming keeps the order inside each class: the system messages that remain are the most
      recent system messages, and the same holds for the other messages. */
  lemma AddKeepsOrderWithinClass(h: seq<Message>, m: Message, max: int)
    ensures IsSuffix(SystemOnly(AfterAdd(h, m, max)), SystemOnly(h + [m]))
    ensures IsSuffix(NonSystem(AfterAdd(h, m, max)), NonSystem(h + [m]))
  {
    var h' := h + [m];
    var s, n := SystemOnly(h'), NonSystem(h');
    var r := AfterAdd(h, m, max);
    AddPartitions(h, m, max);
    var rs, rn := SystemOnly(r), NonSystem(r);
    if |h'| <= max {
      TailIsSuffix(s, 0);
      TailIsSuffix(n, 0);
      assert rs == s && rn == n;
    } else if max - |s| > 0 {
      TailIsSuffix(s, 0);
      TailIsSuffix(n, max - |s|);
      assert rs == s && rn == PyTail(n, max - |s|);
    } else {
      TailIsSuffix(s, max);
      TailIsSuffix(n, 0);
      assert rs == PyTail(s, max) && rn == [];
    }
    assert IsSuffix(rs, s) && IsSuffix(rn, n);
  }

  /** A tail is a suffix, and so is the whole list. */
  lemma TailIsSuffix<T>(s: seq<T>, k: int)
    ensures IsSuffix(PyTail(s, k), s) && IsSuffix(s, s) && IsSuffix([], s)
  {
    assert s[|s| - |PyTail(s, k)|..] == PyTail(s, k);
    assert s[|s|..] == [];
  }

  /** A newly added system message is always kept, as the latest system message (limit not negative). */
  lemma AddKeepsNewSystemMessage(h: seq<Message>, m: Message, max: int)
    requires IsSystem(m) && max >= 0
    ensures m in AfterAdd(h, m, max)
    ensures var s := SystemOnly(AfterAdd(h, m, max)); |s| > 0 && s[|s| - 1] == m
  {
    var h' := h + [m];
    SplitLast(h, m);
    AddPartitions(h, m, max);
    var s := SystemOnly(h');
    assert |s| > 0 && s[|s| - 1] == m;
    var r := AfterAdd(h, m, max);
    if |h'| > max && max - |s| <= 0 {
      assert max > 0 ==> SystemOnly(r) == s[|s| - (if max <= |s| then max else |s|)..];
    }
    assert |SystemOnly(r)| > 0 && SystemOnly(r)[|SystemOnly(r)| - 1] == m;
    SystemOnlyInList(r);
  }

  lemma {:induction false} SystemOnlyInList(h: seq<Message>)
    ensures forall x :: x in SystemOnly(h) ==> x in h
  {
    if |h| > 0 {
      SystemOnlyInList(h[..|h| - 1]);
      assert forall x :: x in h[..|h| - 1] ==> x in h;
    }
  }

  /** One add keeps at least one system message around when there was one and the limit is positive. */
  lemma AddKeepsSomeSystemMessage(h: seq<Message>, m: Message, max: int)
    requires max >= 1 && |SystemOnly(h)| >= 1
    ensures |SystemOnly(AfterAdd(h, m, max))| >= 1
  {
    SplitLast(h, m);
    AddPartitions(h, m, max);
  }

  /** The history after adding each of `ms` in turn. */
  function AddAll(h: seq<Message>, ms: seq<Message>, max: int): seq<Message>
    decreases |ms|
  {
    if |ms| == 0 then h else AddAll(AfterAdd(h, ms[0], max), ms[1..], max)
  }

  /** However many messages are added after a system message, the history stays within the
      limit and a system message survives (one system message and sixteen others with limit 5). */
  lemma {:induction false} AddAllKeepsSystemWithinLimit(h: seq<Message>, ms: seq<Message>, max: int)
    requires max >= 1 && |h| <= max && |SystemOnly(h)| >= 1
    ensures |AddAll(h, ms, max)| <= max
    ensures |SystemOnly(AddAll(h, ms, max))| >= 1
    decreases |ms|
  {
    if |ms| > 0 {
      AddRespectsLimit(h, ms[0], max);
      AddKeepsSomeSystemMessage(h, ms[0], max);
      AddAllKeepsSystemWithinLimit(AfterAdd(h, ms[0], max), ms[1..], max);
    }
  }

  /** `get_last_messages` returns the final `min(count, len)` messages, or nothing for `count <= 0`. */
  lemma LastMessagesAreFinal(h: seq<Message>, count: int)
    ensures var r := LastMessages(h, count);
            && (count <= 0 ==> r == [])
            && (count > 0 ==> |r| == (if count <= |h| then count else |h|) && IsSuffix(r, h))
  {
  }

  /** `ConversationMemory` with its `_history` list. */
  class ConversationMemory {
    var history: seq<Message>
    const maxMessages: int

    /** The history never holds more than a limit of at least one allows. */
    ghost predicate WithinLimit()
      reads this
    {
      maxMessages >= 1 ==> |history| <= maxMessages
    }

    constructor (maxMessages: int)
      ensures history == [] && this.maxMessages == maxMessages
      ensures WithinLimit()
    {
      history := [];
      this.maxMessages := maxMessages;
    }

    method AddMessage(role: string, content: string)
      modifies this
      ensures history == AfterAdd(old(history), Message(role, content), maxMessages)
      ensures WithinLimit()
    {
      if maxMessages >= 1 {
        AddRespectsLimit(history, Message(role, content), maxMessages);
      }
      history := history + [Message(role, content)];
      if |history| > maxMessages {
        var systemMessages := SystemOnly(history);
        var nonSystemMessages := NonSystem(history);
        var keepCount := maxMessages - |systemMessages|;
        if keepCount > 0 {
          history := systemMessages + PyTail(nonSystemMessages, keepCount);
        } else {
          history := PyTail(systemMessages, maxMessages);
        }
      }
    }

    /** `get_history` hands out a copy; a Dafny sequence is a value, so the copy is the sequence itself. */
    method GetHistory() returns (r: seq<Message>)
      ensures r == history
    {
      r := history;
    }

    method Clear()
      modifies this
      ensures history == []
      ensures WithinLimit()
    {
      history := [];
    }

    method GetLastMessages(count: int) returns (r: seq<Message>)
      ensures r == LastMessages(history, count)
      ensures |r| <= |history| && r == history[|history| - |r|..]
    {
      r := if count > 0 then PyTail(history, count) else [];
    }

    /** `__len__` */
    function Len(): (n: nat)
      reads this
      ensures n == |history|
      ensures WithinLimit() && maxMessages >= 1 ==> n <= maxMessages
    {
      |history|
    }
  }
}
