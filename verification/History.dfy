/** Printing and reading back the conversation history around prompt compression. */
module History {
  import opened Text
  import opened Wrappers

  datatype Message = Message(role: string, content: string)

  const USER := "[USER]"
  const ASSISTANT := "[ASSISTANT]"

  // ---------------------------------------------------------------------------
  // Printing
  // ---------------------------------------------------------------------------

  function Tag(role: string): string { if Upper(role) == "USER" then USER else ASSISTANT }

  function Part(m: Message): string { Tag(m.role) + " " + m.content }

  function Parts(history: seq<Message>): seq<string> {
    seq(|history|, i requires 0 <= i < |history| => Part(history[i]))
  }

  method SerializeHistory(history: seq<Message>) returns (text: string)
    ensures text == Join("\n", Parts(history))
  {
    var parts: seq<string> := [];
    for i := 0 to |history|
      invariant parts == Parts(history[..i])
    {
      var role := Upper(history[i].role);
      var tag := if role == "USER" then USER else ASSISTANT;
      parts := parts + [tag + " " + history[i].content];
      assert history[..i + 1] == history[..i] + [history[i]];
    }
    assert history[..|history|] == history;
    text := Join("\n", parts);
  }

  // ---------------------------------------------------------------------------
  // Reading back
  // ---------------------------------------------------------------------------

  /** The text cut at every role tag, as a regular-expression split with one group answers it: the text before the
      first tag, then the name of each tag and the text up to the next. `acc` is read, but not yet cut off. */
  function Segments(acc: string, text: string): (r: seq<string>)
    ensures |r| % 2 == 1
    decreases |text|
  {
    if text == [] then [acc]
    else if USER <= text then [acc, "USER"] + Segments([], text[|USER|..])
    else if ASSISTANT <= text then [acc, "ASSISTANT"] + Segments([], text[|ASSISTANT|..])
    else Segments(acc + [text[0]], text[1..])
  }

  function Rebuild(name: string, content: string): seq<Message> {
    if name == "USER" then [Message("user", Strip(content))]
    else if name == "ASSISTANT" then [Message("assistant", Strip(content))]
    else []
  }

  function FromPairs(segments: seq<string>, i: nat): seq<Message>
    decreases |segments| - i
  {
    if i + 1 < |segments| then Rebuild(segments[i], segments[i + 1]) + FromPairs(segments, i + 2) else []
  }

  function Reconstructed(text: string): seq<Message> {
    var found := FromPairs(Segments([], text), 1);
    if found == [] then [Message("user", Strip(text))] else found
  }

  /** Reading one more pair moves it from what is left to what is read. */
  lemma PairRead(before: seq<Message>, segments: seq<string>, i: nat)
    requires i + 1 < |segments|
    ensures before + FromPairs(segments, i)
         == (before + Rebuild(segments[i], segments[i + 1])) + FromPairs(segments, i + 2)
  {
    hide Rebuild;
  }

  lemma NoPairsLeft(read: seq<Message>, segments: seq<string>, i: nat)
    requires i + 1 >= |segments|
    ensures read + FromPairs(segments, i) == read
  {
  }

  method ReconstructMessages(text: string) returns (result: seq<Message>)
    ensures result == Reconstructed(text)
  {
    hide Segments, FromPairs, Strip;
    var segments := Segments([], text);
    result := [];
    var i := 1;
    while i < |segments| - 1
      invariant 1 <= i && result + FromPairs(segments, i) == FromPairs(segments, 1)
      decreases |segments| - i
    {
      var name := segments[i];
      var content := Strip(segments[i + 1]);
      ghost var before := result;
      if name == "USER" {
        result := result + [Message("user", content)];
      } else if name == "ASSISTANT" {
        result := result + [Message("assistant", content)];
      }
      assert result == before + Rebuild(segments[i], segments[i + 1]);
      PairRead(before, segments, i);
      i := i + 2;
    }
    NoPairsLeft(result, segments, i);
    if result == [] {
      return [Message("user", Strip(text))];
    }
  }

  // ---------------------------------------------------------------------------
  // The round trip
  // ---------------------------------------------------------------------------

  function NormalRole(role: string): string { if Upper(role) == "USER" then "user" else "assistant" }

  function Normal(m: Message): Message { Message(NormalRole(m.role), Strip(m.content)) }

  function Normalised(history: seq<Message>): seq<Message> {
    seq(|history|, i requires 0 <= i < |history| => Normal(history[i]))
  }

  predicate StartsWithTag(s: string) { USER <= s || ASSISTANT <= s }

  /** No role tag occurs in `s`. */
  predicate TagFree(s: string) { forall i :: 0 <= i <= |s| ==> !StartsWithTag(s[i..]) }

  predicate StartsLine(rest: string) { rest == [] || rest[0] == '\n' }

  /** A tag cannot reach over the end of a content into what follows it. */
  lemma TagWithin(s: string, rest: string)
    requires StartsLine(rest)
    ensures USER <= s + rest <==> USER <= s
    ensures ASSISTANT <= s + rest <==> ASSISTANT <= s
  {
    PrefixWithin(USER, s, rest);
    PrefixWithin(ASSISTANT, s, rest);
  }

  lemma PrefixWithin(p: string, s: string, rest: string)
    requires StartsLine(rest) && Free(p, '\n')
    ensures p <= s + rest <==> p <= s
  {
    var z := s + rest;
    assert p <= z <==> |p| <= |z| && p == z[..|p|];
    if |p| <= |s| {
      assert z[..|p|] == s[..|p|];
    } else if |s| < |z| {
      assert z[|s|] == '\n' && p[|s|] != '\n';
    }
  }

  lemma TagFreeTail(s: string)
    requires s != [] && TagFree(s)
    ensures TagFree(s[1..]) && !StartsWithTag(s)
  {
    assert s[0..] == s;
    forall i | 0 <= i <= |s[1..]| ensures !StartsWithTag(s[1..][i..]) {
      assert s[1..][i..] == s[i + 1..];
    }
  }

  /** A tag-free content is read through up to the end of its line. */
  lemma {:induction false} ReadThrough(acc: string, s: string, rest: string)
    requires TagFree(s) && StartsLine(rest)
    ensures Segments(acc, s + rest) == Segments(acc + s, rest)
    decreases |s|
  {
    if s == [] {
      assert s + rest == rest && acc + s == acc;
    } else {
      TagFreeTail(s);
      TagWithin(s, rest);
      assert (s + rest)[1..] == s[1..] + rest;
      ReadThrough(acc + [s[0]], s[1..], rest);
      assert acc + [s[0]] + s[1..] == acc + s;
    }
  }

  function Serialized(history: seq<Message>): string { Join("\n", Parts(history)) }

  /** What follows the first message of a printed history. */
  function Rest(history: seq<Message>): (r: string)
    requires history != []
    ensures StartsLine(r)
  {
    if |history| == 1 then "" else "\n" + Serialized(history[1..])
  }

  lemma Assoc(a: string, b: string, c: string)
    ensures a + b + c == a + (b + c)
  {
  }

  lemma SerializedHead(history: seq<Message>)
    requires history != []
    ensures Serialized(history) == Tag(history[0].role) + (" " + history[0].content + Rest(history))
  {
    hide Tag;
    var parts, tag, content := Parts(history), Tag(history[0].role), history[0].content;
    assert Join("\n", parts) == parts[0] + Rest(history) by {
      hide Part;
      assert parts[1..] == Parts(history[1..]);
      Assoc(parts[0], "\n", Join("\n", parts[1..]));
    }
    hide Join, Parts, Rest;
    Assoc(tag, " ", content);
    Assoc(tag, " " + content, Rest(history));
  }

  function TagName(role: string): string { if Upper(role) == "USER" then "USER" else "ASSISTANT" }

  lemma ReadTag(acc: string, role: string, rest: string)
    ensures Segments(acc, Tag(role) + rest) == [acc, TagName(role)] + Segments([], rest)
  {
    var text := Tag(role) + rest;
    assert text[|Tag(role)|..] == rest;
    if Upper(role) != "USER" {
      assert text[1] == 'A' && USER[1] == 'U';
      assert !(USER <= text);
    }
  }

  lemma {:induction false} PairsShift(head: seq<string>, tail: seq<string>, i: nat)
    requires |head| == 2
    ensures FromPairs(head + tail, i + 2) == FromPairs(tail, i)
    decreases |tail| - i
  {
    hide Rebuild;
    if i + 1 < |tail| {
      assert (head + tail)[i + 2] == tail[i] && (head + tail)[i + 3] == tail[i + 1];
      PairsShift(head, tail, i + 2);
    }
  }

  predicate AllTagFree(history: seq<Message>) { forall i :: 0 <= i < |history| ==> TagFree(history[i].content) }

  lemma SpaceAddsNoTag(s: string)
    ensures TagFree(" " + s) <==> TagFree(s)
  {
    var line := " " + s;
    assert !StartsWithTag(line[0..]) by {
      assert line[0..] == line && line[0] == ' ';
    }
    if TagFree(s) {
      forall i | 0 <= i <= |line| ensures !StartsWithTag(line[i..]) {
        assert i > 0 ==> line[i..] == s[i - 1..];
      }
    }
    if TagFree(line) {
      forall i | 0 <= i <= |s| ensures !StartsWithTag(s[i..]) {
        assert s[i..] == line[i + 1..];
      }
    }
  }

  /** The first message of a printed history is read back, and the rest is read on from its last line. */
  lemma ReadMessage(acc: string, m: Message, rest: string)
    requires TagFree(m.content) && StartsLine(rest)
    ensures var tail := Segments(" " + m.content, rest);
      var all := Segments(acc, Tag(m.role) + (" " + m.content + rest));
      && all[0] == acc
      && FromPairs(all, 1) == Rebuild(TagName(m.role), tail[0]) + FromPairs(tail, 1)
  {
    hide Segments, TagFree, Tag, TagName, Rebuild;
    var line := " " + m.content;
    var tail := Segments(line, rest);
    ReadTag(acc, m.role, line + rest);
    SpaceAddsNoTag(m.content);
    ReadThrough([], line, rest);
    assert [] + line == line;
    var all := [acc, TagName(m.role)] + tail;
    PairsShift([acc, TagName(m.role)], tail, 1);
    assert all[2] == tail[0] && all[1] == TagName(m.role);
    assert FromPairs(all, 1) == Rebuild(all[1], all[2]) + FromPairs(all, 3);
  }

  lemma NextLine(line: string, text: string)
    ensures Segments(line, "\n" + text) == Segments(line + ['\n'], text)
  {
    var rest := "\n" + text;
    assert rest[0] == '\n' && rest[1..] == text && !StartsWithTag(rest);
  }

  lemma RebuildLine(m: Message)
    ensures Rebuild(TagName(m.role), " " + m.content) == [Normal(m)]
    ensures Rebuild(TagName(m.role), " " + m.content + "\n") == [Normal(m)]
  {
    StripPadding(m.content, ' ', '\n');
    hide Strip, Upper;
  }

  lemma {:induction false} ReadHistory(acc: string, history: seq<Message>)
    requires history != [] && AllTagFree(history)
    ensures Segments(acc, Serialized(history))[0] == acc
    ensures FromPairs(Segments(acc, Serialized(history)), 1) == Normalised(history)
    decreases |history|
  {
    hide Serialized, TagFree, Tag, TagName, Rebuild, Normal;
    var m, rest := history[0], Rest(history);
    var line := " " + m.content;
    SerializedHead(history);
    ReadMessage(acc, m, rest);
    RebuildLine(m);
    if |history| == 1 {
      assert Segments(line, rest) == [line];
      assert Normalised(history) == [Normal(m)];
    } else {
      hide Segments;
      NextLine(line, Serialized(history[1..]));
      ReadHistory(line + ['\n'], history[1..]);
      assert Normalised(history) == [Normal(m)] + Normalised(history[1..]);
    }
  }

  // ---------------------------------------------------------------------------
  // What a tag in a content does
  // ---------------------------------------------------------------------------

  /** How many messages a text is cut into does not depend on what was read before. */
  lemma {:induction false} CutsIgnoreAcc(acc: string, other: string, text: string)
    ensures |Segments(acc, text)| == |Segments(other, text)|
    decreases |text|
  {
    if text != [] && !StartsWithTag(text) {
      CutsIgnoreAcc(acc + [text[0]], other + [text[0]], text[1..]);
    }
  }

  /** A content adds the cuts of its own tags, at least one if it has a tag. */
  lemma {:induction false} ContentCuts(acc: string, s: string, rest: string)
    requires StartsLine(rest)
    ensures |Segments(acc, s + rest)| >= |Segments([], rest)| + (if TagFree(s) then 0 else 2)
    decreases |s|
  {
    if s == [] {
      assert s + rest == rest;
      CutsIgnoreAcc(acc, [], rest);
    } else {
      TagWithin(s, rest);
      if USER <= s {
        assert (s + rest)[|USER|..] == s[|USER|..] + rest;
        ContentCuts([], s[|USER|..], rest);
      } else if ASSISTANT <= s {
        assert (s + rest)[|ASSISTANT|..] == s[|ASSISTANT|..] + rest;
        ContentCuts([], s[|ASSISTANT|..], rest);
      } else {
        assert (s + rest)[1..] == s[1..] + rest;
        ContentCuts(acc + [s[0]], s[1..], rest);
        if TagFree(s[1..]) {
          forall i | 0 <= i <= |s| ensures !StartsWithTag(s[i..]) {
            assert i > 0 ==> s[i..] == s[1..][i - 1..];
            assert i == 0 ==> s[i..] == s;
          }
        }
      }
    }
  }

  /** A printed history is cut into at least its own messages, and into more if some content has a tag. */
  lemma {:induction false} HistoryCuts(acc: string, history: seq<Message>)
    requires history != []
    ensures |Segments(acc, Serialized(history))| >= 2 * |history| + (if AllTagFree(history) then 1 else 3)
    decreases |history|
  {
    var m, rest := history[0], Rest(history);
    var line := " " + m.content;
    SerializedHead(history);
    ReadTag(acc, m.role, line + rest);
    ContentCuts([], line, rest);
    SpaceAddsNoTag(m.content);
    if |history| == 1 {
      assert Segments([], rest) == [[]];
    } else {
      var tail := Serialized(history[1..]);
      assert rest == ['\n'] + tail && rest[1..] == tail && !StartsWithTag(rest);
      HistoryCuts(['\n'], history[1..]);
      assert [] + ['\n'] == ['\n'];
      if AllTagFree(history[1..]) && TagFree(m.content) {
        assert forall i :: 1 <= i < |history| ==> history[i] == history[1..][i - 1];
      }
    }
  }

  /** Every cut names a role, so every one gives a message. */
  lemma {:induction false} EveryCutIsAMessage(acc: string, text: string)
    ensures 2 * |FromPairs(Segments(acc, text), 1)| + 1 == |Segments(acc, text)|
    decreases |text|
  {
    if text == [] {
    } else if USER <= text {
      CutIsAMessage(acc, "USER", text[|USER|..]);
      EveryCutIsAMessage([], text[|USER|..]);
    } else if ASSISTANT <= text {
      CutIsAMessage(acc, "ASSISTANT", text[|ASSISTANT|..]);
      EveryCutIsAMessage([], text[|ASSISTANT|..]);
    } else {
      EveryCutIsAMessage(acc + [text[0]], text[1..]);
    }
  }

  lemma CutIsAMessage(acc: string, name: string, text: string)
    requires name == "USER" || name == "ASSISTANT"
    ensures |FromPairs([acc, name] + Segments([], text), 1)| == 1 + |FromPairs(Segments([], text), 1)|
  {
    var tail := Segments([], text);
    var all := [acc, name] + tail;
    PairsShift([acc, name], tail, 1);
    assert FromPairs(all, 1) == Rebuild(all[1], all[2]) + FromPairs(all, 3);
  }

  /** Reading back a printed history gives the same messages, contents stripped and every role other than the user's
      an assistant's, exactly when the history is not empty and no content has a role tag in it. */
  lemma RoundTrip(history: seq<Message>)
    ensures Reconstructed(Serialized(history)) == Normalised(history) <==> history != [] && AllTagFree(history)
  {
    if history == [] {
      assert Normalised(history) == [];
    } else if AllTagFree(history) {
      ReadHistory([], history);
      assert |Normalised(history)| > 0;
    } else {
      HistoryCuts([], history);
      EveryCutIsAMessage([], Serialized(history));
      assert |FromPairs(Segments([], Serialized(history)), 1)| > |Normalised(history)|;
    }
  }

  // ---------------------------------------------------------------------------
  // The whole pass
  // ---------------------------------------------------------------------------

  datatype Split = Split(system: Option<Message>, history: seq<Message>, lastUser: Option<Message>)

  predicate IsUser(m: Message) { m.role == "user" }

  function AfterSystem(messages: seq<Message>): seq<Message> {
    if messages != [] && messages[0].role == "system" then messages[1..] else messages
  }

  /** The last user message, by position; the length of `s` if there is none. */
  function LastUser(s: seq<Message>): (i: nat)
    ensures i <= |s| && (i < |s| ==> IsUser(s[i]))
    ensures forall j :: (if i < |s| then i < j else 0 <= j) && j < |s| ==> !IsUser(s[j])
  {
    if s == [] then 0
    else if IsUser(s[|s| - 1]) then |s| - 1
    else var i := LastUser(s[..|s| - 1]); if i < |s| - 1 then i else |s|
  }

  function SplitOf(messages: seq<Message>): Split {
    var system := if messages != [] && messages[0].role == "system" then Some(messages[0]) else None;
    var remaining := AfterSystem(messages);
    var i := LastUser(remaining);
    if i == |remaining| then Split(system, [], None) else Split(system, remaining[..i], Some(remaining[i]))
  }

  /** The first message is a system prompt. */
  predicate HasSystem(messages: seq<Message>) { messages != [] && messages[0].role == "system" }

  /** The message at `i` is part of the history: a user message follows it, and it is not the system prompt. */
  ghost predicate InHistory(messages: seq<Message>, i: nat) {
    && !(i == 0 && HasSystem(messages))
    && exists j :: i < j < |messages| && messages[j].role == "user"
  }

  /** The split has its parts where they belong: the system prompt is the first message if that is one; if any user
      speaks, the messages begin with system prompt, history and last user message, and no user speaks after them. */
  ghost predicate InPlace(messages: seq<Message>, s: Split) {
    && s.system == (if messages != [] && messages[0].role == "system" then Some(messages[0]) else None)
    && (s.lastUser.Some? <==> exists i :: 0 <= i < |messages| && messages[i].role == "user")
    && (s.lastUser.None? ==> s.history == [])
    && (s.lastUser.Some? ==>
          var front := Optional(s.system) + s.history + [s.lastUser.value];
          front <= messages && s.lastUser.value.role == "user"
          && forall i :: |front| <= i < |messages| ==> messages[i].role != "user")
  }

  method SplitMessages(messages: seq<Message>) returns (split: Split)
    ensures split == SplitOf(messages)
    ensures InPlace(messages, split)
  {
    SplitByPosition(messages);
    if messages == [] {
      return Split(None, [], None);
    }
    var system: Option<Message> := None;
    var remaining := messages;
    if remaining[0].role == "system" {
      system := Some(remaining[0]);
      remaining := remaining[1..];
    }
    var last: Option<nat> := None;
    var i := |remaining|;
    while i > 0
      invariant 0 <= i <= |remaining| && last.None?
      invariant forall j :: i <= j < |remaining| ==> !IsUser(remaining[j])
    {
      i := i - 1;
      if remaining[i].role == "user" {
        last := Some(i);
        break;
      }
    }
    if last.None? {
      return Split(system, [], None);
    }
    return Split(system, remaining[..last.value], Some(remaining[last.value]));
  }

  function Optional(m: Option<Message>): seq<Message> { if m.Some? then [m.value] else [] }

  /** Where the history begins: behind the system prompt, if there is one. */
  function Begin(messages: seq<Message>): (k: nat)
    ensures k <= |messages|
  {
    if HasSystem(messages) then 1 else 0
  }

  /** The split is the one at the last user message from there on. */
  lemma SplitShape(messages: seq<Message>)
    ensures var k := Begin(messages);
      var i := LastUser(messages[k..]);
      SplitOf(messages) == if k + i == |messages| then Split(if k == 1 then Some(messages[0]) else None, [], None)
                           else Split(if k == 1 then Some(messages[0]) else None, messages[k..k + i], Some(messages[k + i]))
  {
    var k := Begin(messages);
    assert AfterSystem(messages) == messages[k..];
    var i := LastUser(messages[k..]);
    assert messages[k..][..i] == messages[k..k + i];
    hide LastUser;
  }

  lemma LastUserFrom(messages: seq<Message>, k: nat)
    requires k <= |messages| && forall j :: 0 <= j < k ==> messages[j].role != "user"
    ensures var n := k + LastUser(messages[k..]);
      && (n < |messages| ==> messages[n].role == "user")
      && forall j :: 0 <= j < |messages| && (n == |messages| || n < j) ==> messages[j].role != "user"
  {
    assert forall j :: k <= j < |messages| ==> messages[j] == messages[k..][j - k];
    hide LastUser;
  }

  lemma SplitByPosition(messages: seq<Message>)
    ensures InPlace(messages, SplitOf(messages))
  {
    hide SplitOf, LastUser;
    SplitShape(messages);
    var s, k := SplitOf(messages), Begin(messages);
    assert "user"[0] != "system"[0];
    LastUserFrom(messages, k);
    var n := k + LastUser(messages[k..]);
    if n < |messages| {
      assert Optional(s.system) + s.history + [s.lastUser.value] == messages[..n + 1];
    }
  }

  /** The messages that are sent on when `compressed` is what compression made of the printed history. */
  function Rebuilt(messages: seq<Message>, compressed: string): seq<Message> {
    var s := SplitOf(messages);
    if s.history == [] then messages
    else Optional(s.system) + Reconstructed(compressed) + Optional(s.lastUser)
  }

  /** The messages with each one of the history in normal form, and every other as it is. */
  ghost function NormalHistory(messages: seq<Message>): seq<Message> {
    seq(|messages|, i requires 0 <= i < |messages| => if InHistory(messages, i) then Normal(messages[i]) else messages[i])
  }

  /** The history that is compressed are the messages of the history, in their order. */
  lemma HistoryByPosition(messages: seq<Message>)
    ensures var s, k := SplitOf(messages), Begin(messages);
      && (forall i :: 0 <= i < |messages| ==> (InHistory(messages, i) <==> k <= i < k + |s.history|))
      && (s.history != [] ==> k + |s.history| < |messages| && s.history == messages[k..k + |s.history|]
                              && s.lastUser == Some(messages[k + |s.history|]))
      && k + |s.history| <= |messages|
  {
    SplitByPosition(messages);
    var s, k := SplitOf(messages), Begin(messages);
    hide SplitOf, LastUser;
    if s.lastUser.Some? {
      var front := Optional(s.system) + s.history + [s.lastUser.value];
      assert messages[..|front|] == front;
      assert front[k..k + |s.history|] == s.history;
      assert messages[k + |s.history|] == front[k + |s.history|] == s.lastUser.value;
    }
  }

  lemma NormalByParts(messages: seq<Message>)
    ensures var s, n := SplitOf(messages), |SplitOf(messages).history|;
      var k := Begin(messages);
      s.history != [] ==>
        k + n < |messages|
        && NormalHistory(messages) == Optional(s.system) + Normalised(s.history) + Optional(s.lastUser) + messages[k + n + 1..]
  {
    HistoryByPosition(messages);
    SplitByPosition(messages);
    hide SplitOf, InHistory, Normal;
  }

  /** No message of the history has a role tag in its content. */
  ghost predicate HistoryTagFree(messages: seq<Message>) {
    forall i :: 0 <= i < |messages| && InHistory(messages, i) ==> TagFree(messages[i].content)
  }

  lemma TagFreeByPosition(messages: seq<Message>)
    ensures AllTagFree(SplitOf(messages).history) <==> HistoryTagFree(messages)
  {
    HistoryByPosition(messages);
    var s, k := SplitOf(messages), Begin(messages);
    hide SplitOf, InHistory, TagFree;
    assert forall i :: 0 <= i < |s.history| ==> s.history[i] == messages[k + i] && InHistory(messages, k + i);
    assert forall i :: 0 <= i < |messages| && InHistory(messages, i) ==> messages[i] == s.history[i - k];
  }

  lemma PassBySplit(messages: seq<Message>)
    requires SplitOf(messages).history != []
    ensures Rebuilt(messages, Serialized(SplitOf(messages).history)) == NormalHistory(messages)
      <==> (messages[|messages| - 1].role == "user" && AllTagFree(SplitOf(messages).history))
  {
    hide SplitOf, Reconstructed, Serialized, Normalised, AllTagFree, InHistory, NormalHistory, LastUser;
    var s, k := SplitOf(messages), Begin(messages);
    var n := k + |s.history|;
    HistoryByPosition(messages);
    SplitByPosition(messages);
    NormalByParts(messages);
    RoundTrip(s.history);
    var trailing := messages[n + 1..];
    var read, normal := Reconstructed(Serialized(s.history)), Normalised(s.history);
    if trailing == [] {
      assert messages[|messages| - 1] == s.lastUser.value;
      SameMiddle(Optional(s.system), read, normal, Optional(s.lastUser));
    } else {
      assert trailing[|trailing| - 1] == messages[|messages| - 1];
      DifferentEnds(Optional(s.system) + read, s.lastUser.value, Optional(s.system) + normal + Optional(s.lastUser),
                    trailing);
    }
  }

  /** With a compression that leaves the text alone, the conversation comes through with its history in normal form
      exactly when there is no history to compress, or the user has the last word and no content of the history has a
      role tag in it. Turns after the last user message are lost. */
  lemma PassIsFaithful(messages: seq<Message>)
    ensures Rebuilt(messages, Serialized(SplitOf(messages).history)) == NormalHistory(messages)
      <==> ((forall i :: 0 <= i < |messages| ==> !InHistory(messages, i))
            || (messages[|messages| - 1].role == "user" && HistoryTagFree(messages)))
  {
    hide SplitOf, Serialized, Reconstructed, InHistory, HistoryTagFree;
    HistoryByPosition(messages);
    if SplitOf(messages).history == [] {
      assert NormalHistory(messages) == messages;
    } else {
      assert InHistory(messages, Begin(messages));
      PassBySplit(messages);
      TagFreeByPosition(messages);
    }
  }

  /** Whatever compression makes of the history, the system prompt stays first and the last user message comes last. */
  lemma EndsAreKept(messages: seq<Message>, compressed: string, j: nat)
    requires j < |messages| && messages[j].role == "user" && forall i :: j < i < |messages| ==> messages[i].role != "user"
    requires exists i :: 0 <= i < |messages| && InHistory(messages, i)
    ensures var r := Rebuilt(messages, compressed);
      && |r| >= 2 && r[|r| - 1] == messages[j] && (HasSystem(messages) ==> r[0] == messages[0])
  {
    HistoryByPosition(messages);
    SplitByPosition(messages);
    var s, k := SplitOf(messages), Begin(messages);
    hide SplitOf, InHistory, Reconstructed;
    var read := Reconstructed(compressed);
    assert k + |s.history| == j;
    assert read != [] by {
      SomethingIsRead(compressed);
    }
  }

  lemma SomethingIsRead(text: string)
    ensures Reconstructed(text) != []
  {
  }

  lemma DifferentEnds(a: seq<Message>, last: Message, b: seq<Message>, trailing: seq<Message>)
    requires trailing != [] && last != trailing[|trailing| - 1]
    ensures a + [last] != b + trailing
  {
    assert (a + [last])[|a + [last]| - 1] == last;
    assert (b + trailing)[|b + trailing| - 1] == trailing[|trailing| - 1];
  }

  lemma SameMiddle<T>(a: seq<T>, x: seq<T>, y: seq<T>, b: seq<T>)
    ensures a + x + b == a + y + b <==> x == y
  {
    if a + x + b == a + y + b {
      assert |x| == |y|;
      assert x == (a + x + b)[|a|..|a| + |x|];
      assert y == (a + y + b)[|a|..|a| + |x|];
    }
  }
}
