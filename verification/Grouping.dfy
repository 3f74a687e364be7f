/** Splitting a history into the whole units that compaction keeps or summarizes. */
module Grouping {
  import opened Text
  import opened Messages

  type Group = seq<Message>

  /** Length of the settled group a history starts with; 0 when it starts with none. */
  function FirstGroup(messages: seq<Message>): (n: nat)
    requires messages != []
    ensures n <= |messages|
    ensures n > 0 ==> IsGroup(messages[..n])
  {
    match messages[0]
    case Tool(_) => 0
    case Assistant(_, calls, _, _) =>
      if calls == [] then assert messages[..1] == [messages[0]]; 1
      else if 1 + |calls| <= |messages| && IsBatch(messages[..1 + |calls|]) then 1 + |calls|
      else 0
    case _ => assert messages[..1] == [messages[0]]; 1
  }

  function GroupsOf(messages: seq<Message>): (r: Option<seq<Group>>)
    ensures r.Some? ==> AllGroups(r.value) && Flatten(r.value) == messages
    decreases |messages|
  {
    if messages == [] then Some([]) else
      var n := FirstGroup(messages);
      if n == 0 then None else
        var rest := GroupsOf(messages[n..]);
        if rest.None? then None else
          assert ([messages[..n]] + rest.value)[1..] == rest.value;
          Some([messages[..n]] + rest.value)
  }

  lemma FirstGroupIs(g: Group, rest: seq<Message>)
    requires IsGroup(g)
    ensures FirstGroup(g + rest) == |g|
  {
    assert (g + rest)[..|g|] == g;
    assert (g + rest)[0] == g[0];
  }

  /** A history has at most one grouping, and the function finds it. */
  lemma {:induction false} GroupingIsUnique(groups: seq<Group>)
    requires AllGroups(groups)
    ensures GroupsOf(Flatten(groups)) == Some(groups)
    decreases |groups|
  {
    if groups != [] {
      var g, rest := groups[0], Flatten(groups[1..]);
      FirstGroupIs(g, rest);
      GroupingIsUnique(groups[1..]);
      assert Flatten(groups)[..|g|] == g && Flatten(groups)[|g|..] == rest;
      assert groups == [g] + groups[1..];
    }
  }

  lemma GroupsOfConcat(a: seq<Message>, b: seq<Message>)
    requires GroupsOf(a).Some? && GroupsOf(b).Some?
    ensures GroupsOf(a + b) == Some(GroupsOf(a).value + GroupsOf(b).value)
  {
    var ga, gb := GroupsOf(a).value, GroupsOf(b).value;
    FlattenConcat(ga, gb);
    GroupingIsUnique(ga + gb);
  }

  /** Everything the pairing validator accepts can be grouped. */
  lemma AcceptedHistoriesGroup(messages: seq<Message>)
    requires WellPaired(messages)
    ensures GroupsOf(messages).Some?
  {
    var groups :| AllGroups(groups) && Flatten(groups) == messages;
    GroupingIsUnique(groups);
  }

  /** Check the results of one assistant turn off against a mutable set of outstanding call ids. */
  method TakeBatch(messages: seq<Message>, start: nat) returns (end: Option<nat>)
    requires start < |messages| && messages[start].Assistant? && messages[start].toolCalls != []
    ensures var n := FirstGroup(messages[start..]); end == if n == 0 then None else Some(start + n)
  {
    ghost var rest := messages[start..];
    var calls := messages[start].toolCalls;
    var ids := CallIds(calls);
    var pending := ToSet(ids);
    if |pending| != |ids| {
      RepeatedIdsAreNoBatch(rest);
      return None;
    }
    SizeMakesDistinct(ids);
    var index := start + 1;
    for k := 0 to |calls|
      invariant index == start + 1 + k <= |messages|
      invariant SettlesFrom(rest[1..1 + k], ToSet(ids))
      invariant pending == ToSet(ids) - ResultIds(rest[1..1 + k])
    {
      assert index < |messages| ==> messages[index] == rest[1 + k];
      if index < |messages| && messages[index].Tool? && messages[index].result.callId in pending {
        SettlesOneMore(rest[1..1 + k], messages[index], ToSet(ids));
        assert rest[1..2 + k] == rest[1..1 + k] + [messages[index]];
        pending := pending - {messages[index].result.callId};
        index := index + 1;
      } else {
        UnsettledIsNoBatch(rest, 1 + k);
        return None;
      }
    }
    assert rest[..1 + |calls|] == [rest[0]] + rest[1..1 + |calls|];
    BatchFrom(messages[start], rest[1..1 + |calls|], rest[..1 + |calls|]);
    end := Some(index);
  }

  /** `group_messages`. */
  method GroupMessages(messages: seq<Message>) returns (r: Option<seq<Group>>)
    ensures r == GroupsOf(messages)
    ensures r.Some? ==> AllGroups(r.value) && Flatten(r.value) == messages
    ensures r.None? ==> forall groups :: AllGroups(groups) ==> Flatten(groups) != messages
  {
    forall groups | AllGroups(groups) && Flatten(groups) == messages ensures GroupsOf(messages).Some? {
      GroupingIsUnique(groups);
    }
    var groups: seq<Group> := [];
    var index := 0;
    assert messages[0..] == messages;
    assert GroupsOf(messages).Some? ==> [] + GroupsOf(messages).value == GroupsOf(messages).value;
    while index < |messages|
      invariant index <= |messages|
      invariant GroupsOf(messages) == Prepended(groups, GroupsOf(messages[index..]))
    {
      var start := index;
      match messages[index] {
        case Tool(_) =>
          return None;
        case Assistant(_, calls, _, _) =>
          if calls != [] {
            var end := TakeBatch(messages, start);
            if end.None? { return None; }
            index := end.value;
          } else {
            index := index + 1;
          }
        case _ =>
          index := index + 1;
      }
      OneMoreGroup(groups, messages, start, index);
      groups := groups + [messages[start..index]];
    }
    assert messages[index..] == [] && groups + [] == groups;
    r := Some(groups);
  }

  function Prepended(groups: seq<Group>, r: Option<seq<Group>>): Option<seq<Group>> {
    if r.None? then None else Some(groups + r.value)
  }

  lemma OneMoreGroup(groups: seq<Group>, messages: seq<Message>, start: nat, end: nat)
    requires start < end <= |messages| && FirstGroup(messages[start..]) == end - start
    ensures Prepended(groups, GroupsOf(messages[start..]))
         == Prepended(groups + [messages[start..end]], GroupsOf(messages[end..]))
  {
    var rest := messages[start..];
    assert rest[..end - start] == messages[start..end] && rest[end - start..] == messages[end..];
    var g, later := messages[start..end], GroupsOf(messages[end..]);
    assert GroupsOf(rest) == if later.None? then None else Some([g] + later.value);
    if later.Some? { Assoc(groups, [g], later.value); }
  }

  lemma RepeatedIdsAreNoBatch(rest: seq<Message>)
    requires rest != [] && rest[0].Assistant? && rest[0].toolCalls != []
    requires |ToSet(CallIds(rest[0].toolCalls))| != |rest[0].toolCalls|
    ensures FirstGroup(rest) == 0
  {
    if Distinct(CallIds(rest[0].toolCalls)) { DistinctSize(CallIds(rest[0].toolCalls)); }
  }

  lemma {:induction false} SizeMakesDistinct<T>(s: seq<T>)
    requires |ToSet(s)| == |s|
    ensures Distinct(s)
  {
    if s != [] {
      var rest := s[1..];
      assert s == [s[0]] + rest;
      assert ToSet(s) == {s[0]} + ToSet(rest);
      SizeAtMostLength(rest);
      SizeMakesDistinct(rest);
      DistinctParts([s[0]], rest);
    }
  }

  lemma {:induction false} SizeAtMostLength<T>(s: seq<T>)
    ensures |ToSet(s)| <= |s|
  {
    if s == [] {
      assert ToSet(s) == {};
    } else {
      SizeAtMostLength(s[1..]);
      assert s == [s[0]] + s[1..];
      assert ToSet(s) == {s[0]} + ToSet(s[1..]);
    }
  }

  lemma SettlesOneMore(results: seq<Message>, m: Message, ids: set<string>)
    requires SettlesFrom(results, ids) && m.Tool? && m.result.callId in ids && m.result.callId !in ResultIds(results)
    ensures SettlesFrom(results + [m], ids)
    ensures ResultIds(results + [m]) == ResultIds(results) + {m.result.callId}
  {
    var more := results + [m];
    assert forall i :: 0 <= i < |results| ==> more[i] == results[i] && results[i].result.callId in ResultIds(results);
    forall x | x in ResultIds(results) + {m.result.callId} ensures x in ResultIds(more) {
      if x == m.result.callId {
        assert more[|results|].result.callId == x;
      } else {
        var i :| 0 <= i < |results| && x == results[i].result.callId;
        assert more[i].result.callId == x;
      }
    }
  }

  /** A batch stops at the first message that is not a result for a call still open. */
  lemma UnsettledIsNoBatch(rest: seq<Message>, k: nat)
    requires rest != [] && rest[0].Assistant? && 1 <= k <= |rest[0].toolCalls| && k <= |rest|
    requires SettlesFrom(rest[1..k], ToSet(CallIds(rest[0].toolCalls)))
    requires k == |rest| || !rest[k].Tool?
          || rest[k].result.callId !in ToSet(CallIds(rest[0].toolCalls)) - ResultIds(rest[1..k])
    ensures FirstGroup(rest) == 0
  {
    var n := 1 + |rest[0].toolCalls|;
    if n <= |rest| && rest[k].Tool? && rest[k].result.callId in ResultIds(rest[1..k]) {
      var i :| 0 <= i < |rest[1..k]| && rest[1..k][i].result.callId == rest[k].result.callId;
      assert rest[..n][i + 1].result.callId == rest[..n][k].result.callId;
    } else if n <= |rest| {
      assert rest[..n][k] == rest[k];
    }
  }

  // ----- Groups and message filters -----

  predicate SystemGroup(g: Group) { g != [] && g[0].System? }

  function SystemFree(messages: seq<Message>): seq<Message> {
    if messages == [] then []
    else (if messages[0].System? then [] else [messages[0]]) + SystemFree(messages[1..])
  }

  function SystemFreeGroups(groups: seq<Group>): seq<Group> {
    if groups == [] then []
    else (if SystemGroup(groups[0]) then [] else [groups[0]]) + SystemFreeGroups(groups[1..])
  }

  lemma {:induction false} SystemFreeConcat(a: seq<Message>, b: seq<Message>)
    ensures SystemFree(a + b) == SystemFree(a) + SystemFree(b)
  {
    if a == [] {
      assert a + b == b;
    } else {
      SystemFreeConcat(a[1..], b);
      assert (a + b)[0] == a[0] && (a + b)[1..] == a[1..] + b;
      Assoc(if a[0].System? then [] else [a[0]], SystemFree(a[1..]), SystemFree(b));
    }
  }

  lemma {:induction false} NothingToFilter(messages: seq<Message>)
    requires forall i :: 0 <= i < |messages| ==> !messages[i].System?
    ensures SystemFree(messages) == messages
  {
    if messages != [] {
      NothingToFilter(messages[1..]);
      assert messages == [messages[0]] + messages[1..];
    }
  }

  /** A System message is always a group of its own. */
  lemma SystemFreeGroup(g: Group)
    requires IsGroup(g)
    ensures SystemFree(g) == if SystemGroup(g) then [] else g
  {
    if !SystemGroup(g) {
      forall i | 0 <= i < |g| ensures !g[i].System? { if IsBatch(g) && i > 0 { assert g[i].Tool?; } }
      NothingToFilter(g);
    }
  }

  lemma {:induction false} SystemFreeCommutes(groups: seq<Group>)
    requires AllGroups(groups)
    ensures Flatten(SystemFreeGroups(groups)) == SystemFree(Flatten(groups))
    ensures AllGroups(SystemFreeGroups(groups))
    decreases |groups|
  {
    if groups != [] {
      SystemFreeCommutes(groups[1..]);
      SystemFreeGroup(groups[0]);
      SystemFreeConcat(groups[0], Flatten(groups[1..]));
      if SystemGroup(groups[0]) {
        assert SystemFreeGroups(groups) == SystemFreeGroups(groups[1..]);
      } else {
        assert SystemFreeGroups(groups)[1..] == SystemFreeGroups(groups[1..]);
      }
    }
  }
}
