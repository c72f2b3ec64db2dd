/** Tool results against the pending calls, and the merging of rejected results that say the same. */
module ToolAnswers {
  import opened Messages

  // ---------- Matching results with pending calls ----------

  function CallIds(calls: seq<ToolCall>): set<string> {
    set i | 0 <= i < |calls| :: calls[i].id
  }

  /** The non-empty call ids that the results answer. */
  function AnsweredIds(results: seq<Message>): set<string> {
    set i | 0 <= i < |results| && results[i].toolCallId.Some? && results[i].toolCallId.value != ""
      :: results[i].toolCallId.value
  }

  predicate Answers(results: seq<Message>, pending: seq<ToolCall>) {
    |results| == |pending| && CallIds(pending) == AnsweredIds(results)
  }

  /** Results answer the pending calls exactly if there are as many, every call has an id that some result answers, and
      every id that is answered was asked for. */
  lemma AnswersExactly(results: seq<Message>, pending: seq<ToolCall>)
    ensures
      Answers(results, pending) <==>
        && |results| == |pending|
        && (forall i :: 0 <= i < |pending| ==>
              && pending[i].id != ""
              && (exists j :: 0 <= j < |results| && results[j].toolCallId == Some(pending[i].id)))
        && (forall j :: 0 <= j < |results| && results[j].toolCallId.Some? && results[j].toolCallId != Some("") ==>
              exists i :: 0 <= i < |pending| && results[j].toolCallId == Some(pending[i].id))
  {
    forall i | 0 <= i < |pending| ensures pending[i].id in CallIds(pending) {
    }
    forall j | 0 <= j < |results| && results[j].toolCallId.Some? && results[j].toolCallId.value != ""
      ensures results[j].toolCallId.value in AnsweredIds(results)
    {
    }
  }

  // ---------- Merging ----------

  predicate IsRejected(m: Message, rejected: set<string>) {
    m.toolCallId.Some? && m.toolCallId.value in rejected
  }

  /** The results that pass through, in order. */
  function Passed(ms: seq<Message>, rejected: set<string>): seq<Message> {
    if ms == [] then [] else
    var init, m := Passed(ms[..|ms| - 1], rejected), ms[|ms| - 1];
    if IsRejected(m, rejected) then init else init + [m]
  }

  /** The distinct contents of the rejected results, in order of first appearance. */
  function RejectedContents(ms: seq<Message>, rejected: set<string>): seq<Option<Text>> {
    if ms == [] then [] else
    var init, m := RejectedContents(ms[..|ms| - 1], rejected), ms[|ms| - 1];
    if !IsRejected(m, rejected) || m.content in init then init else init + [m.content]
  }

  /** The rejected results with one content, in order. */
  function Group(ms: seq<Message>, rejected: set<string>, content: Option<Text>): seq<Message> {
    if ms == [] then [] else
    var init, m := Group(ms[..|ms| - 1], rejected, content), ms[|ms| - 1];
    if IsRejected(m, rejected) && m.content == content then init + [m] else init
  }

  /** The non-empty ids of a group, in order. */
  function GroupIds(group: seq<Message>): seq<string> {
    if group == [] then [] else
    var init, m := GroupIds(group[..|group| - 1]), group[|group| - 1];
    if m.toolCallId.Some? && m.toolCallId.value != "" then init + [m.toolCallId.value] else init
  }

  function Join(ids: seq<string>): string {
    if ids == [] then "" else if |ids| == 1 then ids[0]
    else Join(ids[..|ids| - 1]) + "," + ids[|ids| - 1]
  }

  function GroupNames(group: seq<Message>): set<string> {
    set i | 0 <= i < |group| && group[i].name.Some? && group[i].name.value != "" :: group[i].name.value
  }

  /** A lone result stays as it is; several become one that answers all their ids. */
  function Merge(group: seq<Message>, joinNames: set<string> -> Option<string>): Message
    requires group != []
  {
    if |group| == 1 then group[0]
    else Message(group[0].role, group[0].content, None, None, None, joinNames(GroupNames(group)),
                 Some(Join(GroupIds(group))))
  }

  function MergeAll(ms: seq<Message>, rejected: set<string>, contents: seq<Option<Text>>,
                    joinNames: set<string> -> Option<string>): (r: seq<Message>)
    requires forall c :: c in contents ==> Group(ms, rejected, c) != []
    ensures |r| == |contents|
    ensures forall i :: 0 <= i < |r| ==> r[i] == Merge(Group(ms, rejected, contents[i]), joinNames)
  {
    seq(|contents|, i requires 0 <= i < |contents| => Merge(Group(ms, rejected, contents[i]), joinNames))
  }

  function Aggregate(ms: seq<Message>, rejected: set<string>, joinNames: set<string> -> Option<string>): seq<Message> {
    ContentsMeaning(ms, rejected);
    Passed(ms, rejected) + MergeAll(ms, rejected, RejectedContents(ms, rejected), joinNames)
  }

  lemma {:induction false} ContentsMeaning(ms: seq<Message>, rejected: set<string>)
    ensures forall c :: c in RejectedContents(ms, rejected) <==> Group(ms, rejected, c) != []
    ensures Distinct(RejectedContents(ms, rejected))
  {
    if ms != [] {
      ContentsMeaning(ms[..|ms| - 1], rejected);
    }
  }

  lemma {:induction false} NothingGrouped(ms: seq<Message>, rejected: set<string>)
    ensures Passed(ms[..0], rejected) == [] && RejectedContents(ms[..0], rejected) == []
  {
  }

  /** What one more result adds. */
  lemma {:induction false} ResultGrouped(ms: seq<Message>, i: nat, rejected: set<string>)
    requires i < |ms|
    ensures
      var m, before, after, dropped := ms[i], ms[..i], ms[..i + 1], IsRejected(ms[i], rejected);
      && Passed(after, rejected) == Passed(before, rejected) + (if dropped then [] else [m])
      && RejectedContents(after, rejected)
           == RejectedContents(before, rejected)
            + (if dropped && m.content !in RejectedContents(before, rejected) then [m.content] else [])
      && forall c ::
           Group(after, rejected, c) == Group(before, rejected, c) + (if dropped && m.content == c then [m] else [])
  {
    hide IsRejected;
    assert ms[..i + 1][..i] == ms[..i];
  }

  method AggregateRejected(ms: seq<Message>, rejected: set<string>, joinNames: set<string> -> Option<string>)
    returns (result: seq<Message>)
    ensures result == Aggregate(ms, rejected, joinNames)
  {
    hide Group, Merge, Passed, RejectedContents, IsRejected;
    NothingGrouped(ms, rejected);
    result := [];
    var keys: seq<Option<Text>> := [];
    var groups: map<Option<Text>, seq<Message>> := map[];
    for i := 0 to |ms|
      invariant result == Passed(ms[..i], rejected) && keys == RejectedContents(ms[..i], rejected)
      invariant forall c :: c in groups <==> c in keys
      invariant forall c :: c in groups ==> groups[c] == Group(ms[..i], rejected, c)
    {
      var m := ms[i];
      ResultGrouped(ms, i, rejected);
      ContentsMeaning(ms[..i], rejected);
      if !IsRejected(m, rejected) {
        result := result + [m];
        continue;
      }
      if m.content !in groups {
        keys := keys + [m.content];
        groups := groups[m.content := []];
      }
      groups := groups[m.content := groups[m.content] + [m]];
    }
    assert ms[..|ms|] == ms;
    ContentsMeaning(ms, rejected);
    ghost var passed := result;
    ghost var merged := MergeAll(ms, rejected, keys, joinNames);
    for k := 0 to |keys|
      invariant result == passed + merged[..k]
    {
      var group := groups[keys[k]];
      assert group == Group(ms, rejected, keys[k]);
      assert merged[..k + 1] == merged[..k] + [Merge(group, joinNames)];
      result := result + [Merge(group, joinNames)];
    }
    assert merged[..|keys|] == merged;
  }

  // ---------- What merging keeps ----------

  type Answer = (string, Option<Text>)

  /** The ids in a comma-joined id. */
  function Split(s: string): seq<string> {
    if ',' !in s then [s]
    else
      var k := LastComma(s);
      Split(s[..k]) + [s[k + 1..]]
  }

  function LastComma(s: string): (k: nat)
    requires ',' in s
    ensures k < |s| && s[k] == ',' && ',' !in s[k + 1..]
  {
    if s[|s| - 1] == ',' then |s| - 1 else LastComma(s[..|s| - 1])
  }

  lemma {:induction false} LastCommaOf(a: string, b: string)
    requires ',' !in b
    ensures LastComma(a + "," + b) == |a|
    decreases |b|
  {
    var s := a + "," + b;
    assert s[|a|] == ',';
    if b != [] {
      assert s[|s| - 1] == b[|b| - 1];
      assert s[..|s| - 1] == a + "," + b[..|b| - 1];
      LastCommaOf(a, b[..|b| - 1]);
    }
  }

  lemma {:induction false} SplitAtLast(a: string, b: string)
    requires ',' !in b
    ensures Split(a + "," + b) == Split(a) + [b]
  {
    var s := a + "," + b;
    assert s[|a|] == ',';
    LastCommaOf(a, b);
    assert s[..|a|] == a && s[|a| + 1..] == b;
  }

  lemma {:induction false} CommaFree(s: string)
    requires ',' !in s
    ensures Split(s) == [s]
  {
  }

  lemma Regroup(a: string, front: string, last: string)
    ensures a + "," + (front + "," + last) == a + "," + front + "," + last
  {
  }

  lemma {:induction false} SplitJoined(a: string, front: string, last: string)
    requires ',' !in last && Split(a + "," + front) == Split(a) + Split(front)
    ensures Split(a + "," + (front + "," + last)) == Split(a) + Split(front + "," + last)
  {
    hide Split;
    Regroup(a, front, last);
    SplitAtLast(front, last);
    SplitAtLast(a + "," + front, last);
    assert Split(a) + Split(front) + [last] == Split(a) + (Split(front) + [last]);
  }

  lemma {:induction false} SplitConcat(a: string, b: string)
    ensures Split(a + "," + b) == Split(a) + Split(b)
    decreases |b|
  {
    if ',' !in b {
      CommaFree(b);
      SplitAtLast(a, b);
    } else {
      hide Split, LastComma;
      var k := LastComma(b);
      var front, last := b[..k], b[k + 1..];
      assert b == front + "," + last;
      SplitConcat(a, front);
      SplitJoined(a, front, last);
    }
  }

  /** The (call id, content) pairs that a message answers. */
  function AnswersOf(m: Message): multiset<Answer> {
    if m.toolCallId.None? then multiset{} else PairAll(Split(m.toolCallId.value), m.content)
  }

  function PairAll(ids: seq<string>, content: Option<Text>): multiset<Answer> {
    if ids == [] then multiset{} else PairAll(ids[..|ids| - 1], content) + multiset{(ids[|ids| - 1], content)}
  }

  function AllAnswers(ms: seq<Message>): multiset<Answer> {
    if ms == [] then multiset{} else AllAnswers(ms[..|ms| - 1]) + AnswersOf(ms[|ms| - 1])
  }

  lemma {:induction false} AllAnswersConcat(a: seq<Message>, b: seq<Message>)
    ensures AllAnswers(a + b) == AllAnswers(a) + AllAnswers(b)
  {
    if b == [] {
      assert a + b == a;
    } else {
      assert (a + b)[..|a + b| - 1] == a + b[..|b| - 1];
      AllAnswersConcat(a, b[..|b| - 1]);
    }
  }

  lemma {:induction false} PairAllConcat(a: seq<string>, b: seq<string>, content: Option<Text>)
    ensures PairAll(a + b, content) == PairAll(a, content) + PairAll(b, content)
  {
    if b == [] {
      assert a + b == a;
    } else {
      var n := |b| - 1;
      assert (a + b)[..|a + b| - 1] == a + b[..n];
      PairAllConcat(a, b[..n], content);
    }
  }

  /** The answers of the non-empty ids of a group, joined. */
  function Joined(ids: seq<string>, content: Option<Text>): multiset<Answer> {
    if ids == [] then multiset{} else PairAll(Split(Join(ids)), content)
  }

  lemma {:induction false} JoinedSnoc(ids: seq<string>, id: string, content: Option<Text>)
    ensures Joined(ids + [id], content) == Joined(ids, content) + PairAll(Split(id), content)
  {
    if ids == [] {
      assert ids + [id] == [id];
    } else {
      assert (ids + [id])[..|ids|] == ids;
      SplitConcat(Join(ids), id);
      PairAllConcat(Split(Join(ids)), Split(id), content);
    }
  }

  /** What the empty ids of a group answer. */
  function Blanks(group: seq<Message>, content: Option<Text>): multiset<Answer> {
    if group == [] then multiset{} else
    Blanks(group[..|group| - 1], content)
      + (if group[|group| - 1].toolCallId == Some("") then multiset{("", content)} else multiset{})
  }

  predicate AllWith(group: seq<Message>, content: Option<Text>) {
    forall i :: 0 <= i < |group| ==> group[i].toolCallId.Some? && group[i].content == content
  }

  lemma {:induction false} BlankAnswer(content: Option<Text>)
    ensures PairAll(Split(""), content) == multiset{("", content)}
  {
  }

  lemma {:induction false} GroupAnswers(group: seq<Message>, content: Option<Text>)
    requires AllWith(group, content)
    ensures AllAnswers(group) == Joined(GroupIds(group), content) + Blanks(group, content)
  {
    if group != [] {
      var n := |group| - 1;
      hide AllAnswers, AnswersOf, Joined, GroupIds, Blanks;
      GroupAnswers(group[..n], content);
      MemberAnswers(group, content);
      SumGrows(Joined(GroupIds(group[..n]), content), Joined(GroupIds(group), content),
               Blanks(group[..n], content), Blanks(group, content), AnswersOf(group[n]));
    }
  }

  /** A sum grows by `x` if either part does. */
  lemma SumGrows(a: multiset<Answer>, a': multiset<Answer>, b: multiset<Answer>, b': multiset<Answer>,
                 x: multiset<Answer>)
    requires (a' == a + x && b' == b) || (a' == a && b' == b + x)
    ensures a' + b' == (a + b) + x
  {
  }

  /** What the last member of a group adds to its answers, to the joined ones or to the blanks. */
  lemma MemberAnswers(group: seq<Message>, content: Option<Text>)
    requires AllWith(group, content) && group != []
    ensures
      var init, m := group[..|group| - 1], group[|group| - 1];
      var blank := m.toolCallId == Some("");
      && AllAnswers(group) == AllAnswers(init) + AnswersOf(m)
      && Joined(GroupIds(group), content)
           == Joined(GroupIds(init), content) + (if blank then multiset{} else AnswersOf(m))
      && Blanks(group, content) == Blanks(init, content) + (if blank then AnswersOf(m) else multiset{})
  {
    hide Split, Join, PairAll, Joined;
    var init, m := group[..|group| - 1], group[|group| - 1];
    if m.toolCallId.value == "" {
      BlankAnswer(content);
    } else {
      JoinedSnoc(GroupIds(init), m.toolCallId.value, content);
    }
  }

  lemma {:induction false} BlanksMeaning(group: seq<Message>, content: Option<Text>)
    ensures Blanks(group, content) == multiset{} <==> forall i :: 0 <= i < |group| ==> group[i].toolCallId != Some("")
  {
    if group != [] {
      BlanksMeaning(group[..|group| - 1], content);
      assert group[|group| - 1].toolCallId == Some("") ==> ("", content) in Blanks(group, content);
    }
  }

  /** Nothing is lost by merging the group: it has one member, or no empty id. */
  predicate Lossless(group: seq<Message>) {
    |group| == 1 || forall i :: 0 <= i < |group| ==> group[i].toolCallId != Some("")
  }

  lemma {:induction false} MergeAnswers(group: seq<Message>, content: Option<Text>,
                                        joinNames: set<string> -> Option<string>)
    requires group != [] && AllWith(group, content)
    ensures AnswersOf(Merge(group, joinNames)) <= AllAnswers(group)
    ensures AnswersOf(Merge(group, joinNames)) == AllAnswers(group) <==> Lossless(group)
  {
    hide Split, Join, PairAll;
    if |group| == 1 {
      assert group[..0] == [];
      assert AllAnswers(group[..0]) == multiset{};
    } else {
      GroupAnswers(group, content);
      BlanksMeaning(group, content);
      var ids := GroupIds(group);
      if ids == [] {
        NothingJoined(content);
        NoIds(group);
        OnlyBlanks(group, content);
      } else {
        assert AnswersOf(Merge(group, joinNames)) == Joined(ids, content);
      }
    }
  }

  lemma {:induction false} NothingJoined(content: Option<Text>)
    ensures PairAll(Split(Join([])), content) == multiset{("", content)}
  {
  }

  lemma {:induction false} NoIds(group: seq<Message>)
    requires GroupIds(group) == [] && forall i :: 0 <= i < |group| ==> group[i].toolCallId.Some?
    ensures forall i :: 0 <= i < |group| ==> group[i].toolCallId == Some("")
  {
    if group != [] {
      NoIds(group[..|group| - 1]);
    }
  }

  lemma {:induction false} OnlyBlanks(group: seq<Message>, content: Option<Text>)
    requires forall i :: 0 <= i < |group| ==> group[i].toolCallId == Some("")
    ensures Blanks(group, content)[("", content)] == |group|
  {
    if group != [] {
      OnlyBlanks(group[..|group| - 1], content);
    }
  }

  lemma {:induction false} GroupMembers(ms: seq<Message>, rejected: set<string>, content: Option<Text>)
    ensures forall i :: 0 <= i < |Group(ms, rejected, content)| ==>
              && Group(ms, rejected, content)[i] in ms
              && IsRejected(Group(ms, rejected, content)[i], rejected)
              && Group(ms, rejected, content)[i].content == content
  {
    if ms != [] {
      GroupMembers(ms[..|ms| - 1], rejected, content);
    }
  }

  /** All answers of the groups of some contents. */
  function GroupsAnswers(ms: seq<Message>, rejected: set<string>, contents: seq<Option<Text>>): multiset<Answer> {
    if contents == [] then multiset{} else
    GroupsAnswers(ms, rejected, contents[..|contents| - 1]) + AllAnswers(Group(ms, rejected, contents[|contents| - 1]))
  }

  /** One more result changes only the group of its own content. */
  lemma {:induction false} GroupGrow(ms: seq<Message>, m: Message, rejected: set<string>, content: Option<Text>)
    ensures AllAnswers(Group(ms + [m], rejected, content))
         == AllAnswers(Group(ms, rejected, content))
          + (if IsRejected(m, rejected) && m.content == content then AnswersOf(m) else multiset{})
  {
  }

  predicate Distinct(contents: seq<Option<Text>>) {
    forall i, j :: 0 <= i < j < |contents| ==> contents[i] != contents[j]
  }

  /** One more result adds its answers to those of the groups if it is rejected and its content has a group. */
  lemma {:induction false} GroupsGrow(ms: seq<Message>, m: Message, rejected: set<string>, contents: seq<Option<Text>>)
    requires Distinct(contents)
    ensures GroupsAnswers(ms + [m], rejected, contents)
         == GroupsAnswers(ms, rejected, contents)
          + (if IsRejected(m, rejected) && m.content in contents then AnswersOf(m) else multiset{})
  {
    if contents != [] {
      hide AnswersOf, AllAnswers, Group, IsRejected, GroupsAnswers, Distinct;
      var n := |contents| - 1;
      InInit(contents, m.content);
      GroupsGrow(ms, m, rejected, contents[..n]);
      GroupGrow(ms, m, rejected, contents[n]);
      LastGroup(ms, rejected, contents);
      LastGroup(ms + [m], rejected, contents);
      if IsRejected(m, rejected) && m.content in contents {
        SumGrows(GroupsAnswers(ms, rejected, contents[..n]), GroupsAnswers(ms + [m], rejected, contents[..n]),
                 AllAnswers(Group(ms, rejected, contents[n])), AllAnswers(Group(ms + [m], rejected, contents[n])),
                 AnswersOf(m));
      } else {
        assert GroupsAnswers(ms + [m], rejected, contents[..n]) == GroupsAnswers(ms, rejected, contents[..n]);
        assert AllAnswers(Group(ms + [m], rejected, contents[n])) == AllAnswers(Group(ms, rejected, contents[n]));
      }
    }
  }

  lemma {:induction false} LastGroup(ms: seq<Message>, rejected: set<string>, contents: seq<Option<Text>>)
    requires contents != []
    ensures
      var n := |contents| - 1;
      GroupsAnswers(ms, rejected, contents)
        == GroupsAnswers(ms, rejected, contents[..n]) + AllAnswers(Group(ms, rejected, contents[n]))
  {
  }

  /** Without repetitions, a member is the last element or an earlier one, and not both. */
  lemma InInit(contents: seq<Option<Text>>, c: Option<Text>)
    requires contents != [] && Distinct(contents)
    ensures
      var init, last := contents[..|contents| - 1], contents[|contents| - 1];
      && Distinct(init)
      && (c in contents <==> c in init || c == last) && !(c in init && c == last)
  {
    assert contents == contents[..|contents| - 1] + [contents[|contents| - 1]];
  }

  lemma {:induction false} PassedGrow(ms: seq<Message>, m: Message, rejected: set<string>)
    ensures AllAnswers(Passed(ms + [m], rejected))
         == AllAnswers(Passed(ms, rejected)) + (if IsRejected(m, rejected) then multiset{} else AnswersOf(m))
  {
  }

  lemma {:induction false} ContentsGrow(ms: seq<Message>, m: Message, rejected: set<string>)
    ensures GroupsAnswers(ms + [m], rejected, RejectedContents(ms + [m], rejected))
         == GroupsAnswers(ms, rejected, RejectedContents(ms, rejected))
          + (if IsRejected(m, rejected) then AnswersOf(m) else multiset{})
  {
    var before, after := RejectedContents(ms, rejected), RejectedContents(ms + [m], rejected);
    ContentsMeaning(ms, rejected);
    ContentsMeaning(ms + [m], rejected);
    ContentsStep(ms, m, rejected);
    hide AnswersOf, Group, RejectedContents, IsRejected;
    GroupsGrow(ms, m, rejected, after);
    if after != before {
      assert after[..|before|] == before;
      assert Group(ms, rejected, m.content) == [];
    }
  }

  lemma {:induction false} ContentsStep(ms: seq<Message>, m: Message, rejected: set<string>)
    ensures
      var before, after := RejectedContents(ms, rejected), RejectedContents(ms + [m], rejected);
      && after == (if IsRejected(m, rejected) && m.content !in before then before + [m.content] else before)
      && (IsRejected(m, rejected) ==> m.content in after)
  {
    assert (ms + [m])[..|ms|] == ms;
  }

  /** The answers of the passed results and of all groups together. */
  function PartedAnswers(ms: seq<Message>, rejected: set<string>): multiset<Answer> {
    AllAnswers(Passed(ms, rejected)) + GroupsAnswers(ms, rejected, RejectedContents(ms, rejected))
  }

  lemma PartedGrow(ms: seq<Message>, m: Message, rejected: set<string>)
    ensures PartedAnswers(ms + [m], rejected) == PartedAnswers(ms, rejected) + AnswersOf(m)
  {
    PassedGrow(ms, m, rejected);
    ContentsGrow(ms, m, rejected);
  }

  lemma {:induction false} PartitionAnswers(ms: seq<Message>, rejected: set<string>)
    ensures PartedAnswers(ms, rejected) == AllAnswers(ms)
  {
    if ms != [] {
      var n := |ms| - 1;
      assert ms == ms[..n] + [ms[n]];
      PartitionAnswers(ms[..n], rejected);
      PartedGrow(ms[..n], ms[n], rejected);
    }
  }

  lemma SumsAgree(a: multiset<Answer>, a': multiset<Answer>, b: multiset<Answer>, b': multiset<Answer>)
    requires a <= a' && b <= b'
    ensures a + b <= a' + b'
    ensures a + b == a' + b' <==> a == a' && b == b'
  {
    if a + b == a' + b' {
      forall x ensures a[x] == a'[x] && b[x] == b'[x] {
        assert (a + b)[x] == (a' + b')[x];
      }
    }
  }

  lemma {:induction false} MergedAnswers(ms: seq<Message>, rejected: set<string>, contents: seq<Option<Text>>,
                                         joinNames: set<string> -> Option<string>)
    requires forall c :: c in contents ==> Group(ms, rejected, c) != []
    ensures
      var merged := AllAnswers(MergeAll(ms, rejected, contents, joinNames));
      && merged <= GroupsAnswers(ms, rejected, contents)
      && (merged == GroupsAnswers(ms, rejected, contents)
          <==> forall c :: c in contents ==> Lossless(Group(ms, rejected, c)))
  {
    hide AnswersOf, Merge, Group, Lossless;
    if contents != [] {
      var n := |contents| - 1;
      var group := Group(ms, rejected, contents[n]);
      var init := MergeAll(ms, rejected, contents[..n], joinNames);
      assert MergeAll(ms, rejected, contents, joinNames)[..n] == init;
      assert contents == contents[..n] + [contents[n]];
      MergedAnswers(ms, rejected, contents[..n], joinNames);
      GroupMembers(ms, rejected, contents[n]);
      MergeAnswers(group, contents[n], joinNames);
      SumsAgree(AllAnswers(init), GroupsAnswers(ms, rejected, contents[..n]), AnswersOf(Merge(group, joinNames)),
                AllAnswers(group));
    }
  }

  /** Merging keeps every (call id, content) pair exactly as often as it was there, unless it merges an empty id. */
  lemma {:induction false} AggregationKeepsAnswers(ms: seq<Message>, rejected: set<string>,
                                                   joinNames: set<string> -> Option<string>)
    ensures
      AllAnswers(Aggregate(ms, rejected, joinNames)) == AllAnswers(ms)
      <==> forall c :: c in RejectedContents(ms, rejected) ==> Lossless(Group(ms, rejected, c))
  {
    hide AnswersOf, Merge, Group, Lossless, Passed, RejectedContents, AllAnswers, GroupsAnswers;
    var contents := RejectedContents(ms, rejected);
    ContentsMeaning(ms, rejected);
    PartitionAnswers(ms, rejected);
    MergedAnswers(ms, rejected, contents, joinNames);
    AllAnswersConcat(Passed(ms, rejected), MergeAll(ms, rejected, contents, joinNames));
    var passed := AllAnswers(Passed(ms, rejected));
    SumsAgree(passed, passed, AllAnswers(MergeAll(ms, rejected, contents, joinNames)),
              GroupsAnswers(ms, rejected, contents));
  }

  /** The results that are not rejected come first and in order; after them, one message per distinct
      rejected content. */
  lemma {:induction false} AggregationShape(ms: seq<Message>, rejected: set<string>,
                                            joinNames: set<string> -> Option<string>)
    ensures Passed(ms, rejected) <= Aggregate(ms, rejected, joinNames)
    ensures
      var rest := Aggregate(ms, rejected, joinNames)[|Passed(ms, rejected)|..];
      && |rest| == |RejectedContents(ms, rejected)|
      && (forall i :: 0 <= i < |rest| ==> rest[i].content == RejectedContents(ms, rejected)[i])
      && (forall i, j :: 0 <= i < j < |rest| ==> rest[i].content != rest[j].content)
  {
    var contents := RejectedContents(ms, rejected);
    ContentsMeaning(ms, rejected);
    var merged := MergeAll(ms, rejected, contents, joinNames);
    assert Aggregate(ms, rejected, joinNames)[|Passed(ms, rejected)|..] == merged;
    forall i | 0 <= i < |merged| ensures merged[i].content == contents[i] {
      GroupMembers(ms, rejected, contents[i]);
    }
  }

  /** Merging keeps roles and never empties a batch. */
  lemma AggregateRoles(ms: seq<Message>, rejected: set<string>, joinNames: set<string> -> Option<string>)
    ensures (forall i :: 0 <= i < |ms| ==> ms[i].role == Tool) ==>
              forall m :: m in Aggregate(ms, rejected, joinNames) ==> m.role == Tool
    ensures ms != [] ==> Aggregate(ms, rejected, joinNames) != []
  {
    var contents := RejectedContents(ms, rejected);
    ContentsMeaning(ms, rejected);
    PassedMembers(ms, rejected);
    var merged := MergeAll(ms, rejected, contents, joinNames);
    forall i | 0 <= i < |merged| ensures exists m :: m in ms && m.role == merged[i].role {
      GroupMembers(ms, rejected, contents[i]);
      assert Group(ms, rejected, contents[i])[0] in ms;
    }
    if ms != [] {
      var m := ms[|ms| - 1];
      if IsRejected(m, rejected) {
        assert m.content in contents;
      } else {
        assert m in Passed(ms, rejected);
      }
    }
  }

  lemma {:induction false} PassedMembers(ms: seq<Message>, rejected: set<string>)
    ensures forall m :: m in Passed(ms, rejected) ==> m in ms
  {
    if ms != [] {
      PassedMembers(ms[..|ms| - 1], rejected);
    }
  }

  // ---------- What merging gives, place by place ----------

  /** Result number `i` answers a rejected call. */
  predicate Dropped(ms: seq<Message>, rejected: set<string>, i: nat)
    requires i < |ms|
  {
    match ms[i].toolCallId
    case Some(id) => id in rejected
    case None => false
  }

  /** The results before number `n` that are not rejected. */
  function KeptBefore(ms: seq<Message>, rejected: set<string>, n: nat): nat
    requires n <= |ms|
  {
    if n == 0 then 0 else KeptBefore(ms, rejected, n - 1) + (if Dropped(ms, rejected, n - 1) then 0 else 1)
  }

  /** The first rejected result with its content. */
  ghost predicate IsFirst(ms: seq<Message>, rejected: set<string>, i: nat)
    requires i < |ms|
  {
    Dropped(ms, rejected, i) && forall j :: 0 <= j < i && Dropped(ms, rejected, j) ==> ms[j].content != ms[i].content
  }

  ghost function FirstsBefore(ms: seq<Message>, rejected: set<string>, n: nat): nat
    requires n <= |ms|
  {
    if n == 0 then 0 else FirstsBefore(ms, rejected, n - 1) + (if IsFirst(ms, rejected, n - 1) then 1 else 0)
  }

  /** Another rejected result says the same. */
  ghost predicate Repeated(ms: seq<Message>, rejected: set<string>, i: nat, n: nat)
    requires i < n <= |ms|
  {
    exists j :: i < j < n && Dropped(ms, rejected, j) && ms[j].content == ms[i].content
  }

  /** The non-empty ids of the rejected results with content `c`, in order. */
  function IdsFor(ms: seq<Message>, rejected: set<string>, c: Option<Text>, n: nat): seq<string>
    requires n <= |ms|
  {
    if n == 0 then [] else
    var init := IdsFor(ms, rejected, c, n - 1);
    if Dropped(ms, rejected, n - 1) && ms[n - 1].content == c && ms[n - 1].toolCallId != Some("")
    then init + [ms[n - 1].toolCallId.value] else init
  }

  function NamesFor(ms: seq<Message>, rejected: set<string>, c: Option<Text>, n: nat): set<string>
    requires n <= |ms|
  {
    set i | 0 <= i < n && Dropped(ms, rejected, i) && ms[i].content == c && ms[i].name.Some? && ms[i].name.value != ""
      :: ms[i].name.value
  }

  lemma DroppedIs(ms: seq<Message>, rejected: set<string>, i: nat)
    requires i < |ms|
    ensures Dropped(ms, rejected, i) <==> IsRejected(ms[i], rejected)
    ensures Dropped(ms, rejected, i) ==> ms[i].toolCallId.Some?
  {
  }

  lemma {:induction false} PassedAt(ms: seq<Message>, rejected: set<string>, i: nat, n: nat)
    requires i < |ms| && n <= |ms|
    ensures |Passed(ms[..n], rejected)| == KeptBefore(ms, rejected, n)
    ensures i < n && !Dropped(ms, rejected, i) ==>
              KeptBefore(ms, rejected, i) < KeptBefore(ms, rejected, n)
              && Passed(ms[..n], rejected)[KeptBefore(ms, rejected, i)] == ms[i]
  {
    hide Passed, Group, RejectedContents, Dropped, IsRejected;
    NothingGrouped(ms, rejected);
    if n > 0 {
      PassedAt(ms, rejected, i, n - 1);
      ResultGrouped(ms, n - 1, rejected);
      DroppedIs(ms, rejected, n - 1);
    }
  }

  lemma {:induction false} ContentsAt(ms: seq<Message>, rejected: set<string>, i: nat, n: nat)
    requires i < |ms| && n <= |ms|
    ensures |RejectedContents(ms[..n], rejected)| == FirstsBefore(ms, rejected, n)
    ensures i < n && IsFirst(ms, rejected, i) ==>
              FirstsBefore(ms, rejected, i) < FirstsBefore(ms, rejected, n)
              && RejectedContents(ms[..n], rejected)[FirstsBefore(ms, rejected, i)] == ms[i].content
    ensures forall c :: c in RejectedContents(ms[..n], rejected) <==> SaidBefore(ms, rejected, c, n)
  {
    hide RejectedContents, Group, Passed, Dropped, IsRejected, SaidBefore, IsFirst;
    NothingGrouped(ms, rejected);
    NothingSaid(ms, rejected);
    if n > 0 {
      ContentsAt(ms, rejected, i, n - 1);
      ResultGrouped(ms, n - 1, rejected);
      DroppedIs(ms, rejected, n - 1);
      SaidGrows(ms, rejected, n - 1);
    }
  }

  ghost predicate SaidBefore(ms: seq<Message>, rejected: set<string>, c: Option<Text>, n: nat)
    requires n <= |ms|
  {
    exists j :: 0 <= j < n && Dropped(ms, rejected, j) && ms[j].content == c
  }

  lemma NothingSaid(ms: seq<Message>, rejected: set<string>)
    ensures forall c :: !SaidBefore(ms, rejected, c, 0)
  {
  }

  lemma SaidGrows(ms: seq<Message>, rejected: set<string>, n: nat)
    requires n < |ms|
    ensures forall c :: SaidBefore(ms, rejected, c, n + 1) <==>
                          SaidBefore(ms, rejected, c, n) || (Dropped(ms, rejected, n) && ms[n].content == c)
    ensures IsFirst(ms, rejected, n) <==> Dropped(ms, rejected, n) && !SaidBefore(ms, rejected, ms[n].content, n)
  {
    hide Dropped;
  }

  /** What the group of a first result looks like after `n` results. */
  lemma {:induction false} GroupAt(ms: seq<Message>, rejected: set<string>, i: nat, n: nat)
    requires i < |ms| && n <= |ms| && IsFirst(ms, rejected, i)
    ensures
      var group := Group(ms[..n], rejected, ms[i].content);
      && (n <= i ==> group == [])
      && (i < n ==> group != [] && group[0] == ms[i] && (|group| == 1 <==> !Repeated(ms, rejected, i, n)))
  {
    hide Passed, Group, RejectedContents, Dropped, IsRejected, Repeated;
    NothingInGroup(ms, rejected, ms[i].content);
    if n > 0 {
      GroupAt(ms, rejected, i, n - 1);
      ResultGrouped(ms, n - 1, rejected);
      DroppedIs(ms, rejected, n - 1);
      if i < n - 1 {
        RepeatedGrows(ms, rejected, i, n - 1);
      } else if i == n - 1 {
        NotRepeatedYet(ms, rejected, i);
      }
    }
  }

  lemma NotRepeatedYet(ms: seq<Message>, rejected: set<string>, i: nat)
    requires i < |ms|
    ensures !Repeated(ms, rejected, i, i + 1)
  {
  }

  lemma RepeatedGrows(ms: seq<Message>, rejected: set<string>, i: nat, n: nat)
    requires i < n < |ms|
    ensures Repeated(ms, rejected, i, n + 1) <==>
              Repeated(ms, rejected, i, n) || (Dropped(ms, rejected, n) && ms[n].content == ms[i].content)
  {
    hide Dropped;
  }

  lemma NothingInGroup(ms: seq<Message>, rejected: set<string>, c: Option<Text>)
    ensures Group(ms[..0], rejected, c) == []
  {
  }

  lemma {:induction false} GroupIdsAt(ms: seq<Message>, rejected: set<string>, c: Option<Text>, n: nat)
    requires n <= |ms|
    ensures GroupIds(Group(ms[..n], rejected, c)) == IdsFor(ms, rejected, c, n)
  {
    hide Group, Passed, RejectedContents, GroupIds, Dropped, IsRejected;
    NothingNamed(ms, rejected, c);
    if n == 0 {
      assert ms[..n] == ms[..0];
    } else {
      GroupIdsAt(ms, rejected, c, n - 1);
      ResultGrouped(ms, n - 1, rejected);
      DroppedIs(ms, rejected, n - 1);
      var before := Group(ms[..n - 1], rejected, c);
      assert before + [] == before && ms[..n - 1 + 1] == ms[..n];
      GroupIdsSnoc(before, ms[n - 1]);
    }
  }

  lemma NothingNamed(ms: seq<Message>, rejected: set<string>, c: Option<Text>)
    ensures GroupIds(Group(ms[..0], rejected, c)) == [] && GroupNames(Group(ms[..0], rejected, c)) == {}
    ensures NamesFor(ms, rejected, c, 0) == {}
  {
  }

  lemma {:induction false} GroupIdsSnoc(group: seq<Message>, m: Message)
    ensures
      GroupIds(group + [m])
      == GroupIds(group) + (if m.toolCallId.Some? && m.toolCallId.value != "" then [m.toolCallId.value] else [])
  {
  }

  lemma {:induction false} GroupNamesAt(ms: seq<Message>, rejected: set<string>, c: Option<Text>, n: nat)
    requires n <= |ms|
    ensures GroupNames(Group(ms[..n], rejected, c)) == NamesFor(ms, rejected, c, n)
  {
    hide Group, Passed, RejectedContents, GroupNames, NamesFor, Dropped, IsRejected;
    NothingNamed(ms, rejected, c);
    if n == 0 {
      assert ms[..n] == ms[..0];
    } else {
      GroupNamesAt(ms, rejected, c, n - 1);
      ResultGrouped(ms, n - 1, rejected);
      DroppedIs(ms, rejected, n - 1);
      NamesGrow(ms, rejected, c, n);
      var before := Group(ms[..n - 1], rejected, c);
      assert before + [] == before && ms[..n - 1 + 1] == ms[..n];
      GroupNamesSnoc(before, ms[n - 1]);
    }
  }

  /** The name that a message contributes. */
  function NameIn(m: Message): set<string> {
    if m.name.Some? && m.name.value != "" then {m.name.value} else {}
  }

  lemma GroupNamesSnoc(group: seq<Message>, m: Message)
    ensures GroupNames(group + [m]) == GroupNames(group) + NameIn(m)
  {
    var all := group + [m];
    forall name | name in GroupNames(group) + NameIn(m) ensures name in GroupNames(all) {
      if name in GroupNames(group) {
        var i :| 0 <= i < |group| && group[i].name == Some(name);
        assert all[i].name == Some(name);
      } else {
        assert all[|group|].name == Some(name);
      }
    }
  }

  lemma NamesGrow(ms: seq<Message>, rejected: set<string>, c: Option<Text>, n: nat)
    requires 0 < n <= |ms|
    ensures
      NamesFor(ms, rejected, c, n) == NamesFor(ms, rejected, c, n - 1)
        + (if Dropped(ms, rejected, n - 1) && ms[n - 1].content == c then NameIn(ms[n - 1]) else {})
  {
    hide Dropped;
  }

  /** Ids are joined in order, with a comma between any two. */
  lemma {:induction false} JoinInOrder(ids: seq<string>)
    ensures Join(ids) == if ids == [] then "" else if |ids| == 1 then ids[0] else ids[0] + "," + Join(ids[1..])
  {
    if |ids| > 2 {
      var n := |ids| - 1;
      JoinInOrder(ids[..n]);
      assert ids[..n][1..] == ids[1..][..n - 1];
    } else if |ids| == 2 {
      assert ids[..1] == [ids[0]] && ids[1..] == [ids[1]];
    }
  }

  /** The whole of merging: a result that is not rejected stays as it is, at the place that leaves room for those
      before it; after them comes one message for each first rejected result, in order, either as it is or, where others
      say the same, with all their non-empty ids in order, and the names among them. */
  lemma AggregationExactly(ms: seq<Message>, rejected: set<string>, joinNames: set<string> -> Option<string>, i: nat)
    requires i < |ms|
    ensures
      var merged, kept, c := Aggregate(ms, rejected, joinNames), KeptBefore(ms, rejected, |ms|), ms[i].content;
      && |merged| == kept + FirstsBefore(ms, rejected, |ms|)
      && (!Dropped(ms, rejected, i) ==>
           KeptBefore(ms, rejected, i) < kept && merged[KeptBefore(ms, rejected, i)] == ms[i])
      && (IsFirst(ms, rejected, i) ==>
           && FirstsBefore(ms, rejected, i) < FirstsBefore(ms, rejected, |ms|)
           && merged[kept + FirstsBefore(ms, rejected, i)] ==
              if Repeated(ms, rejected, i, |ms|)
              then Message(ms[i].role, c, None, None, None, joinNames(NamesFor(ms, rejected, c, |ms|)),
                           Some(Join(IdsFor(ms, rejected, c, |ms|))))
              else ms[i])
  {
    hide Passed, Group, RejectedContents, Dropped, IsRejected, Repeated, GroupIds, GroupNames, NamesFor, IdsFor,
      IsFirst;
    var n := |ms|;
    assert ms[..n] == ms;
    PassedAt(ms, rejected, i, n);
    ContentsAt(ms, rejected, i, n);
    ContentsMeaning(ms, rejected);
    if IsFirst(ms, rejected, i) {
      GroupAt(ms, rejected, i, n);
      GroupIdsAt(ms, rejected, ms[i].content, n);
      GroupNamesAt(ms, rejected, ms[i].content, n);
    }
  }
}
