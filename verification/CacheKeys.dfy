/** What the semantic cache looks an answer up by: the text that is embedded and the fingerprint of what came before. */
module CacheKeys {
  import opened StableSort
  import opened Text

  datatype ContentPart = TextPart(text: string) | MediaPart

  /** A message's content: text, a list of parts, or none. */
  datatype Content = Plain(text: string) | Parts(parts: seq<ContentPart>) | Absent

  datatype Message = Message(role: string, content: Content)

  function Texts(parts: seq<ContentPart>): seq<string> {
    if parts == [] then []
    else if parts[0].TextPart? then [parts[0].text] + Texts(parts[1..])
    else Texts(parts[1..])
  }

  function ContentText(content: Content): string {
    match content
    case Plain(text) => text
    case Parts(parts) => Join(" ", Texts(parts))
    case Absent => ""
  }

  /** The text of a list of parts is made of its text parts, all of them and in order; other parts leave nothing. */
  lemma {:induction false} EveryTextCounts(parts: seq<ContentPart>, last: ContentPart)
    ensures Texts(parts + [last]) == Texts(parts) + if last.TextPart? then [last.text] else []
  {
    if parts != [] {
      EveryTextCounts(parts[1..], last);
      assert (parts + [last])[1..] == parts[1..] + [last];
    }
  }

  // ---------------------------------------------------------------------------
  // The text to embed
  // ---------------------------------------------------------------------------

  /** The first system text that is not empty. */
  function SystemPrompt(messages: seq<Message>): string {
    if messages == [] then ""
    else if messages[0].role == "system" && ContentText(messages[0].content) != "" then ContentText(messages[0].content)
    else SystemPrompt(messages[1..])
  }

  /** The last user message, by position; the length of `messages` if there is none. */
  function LastUser(messages: seq<Message>): (i: nat)
    ensures i <= |messages| && (i < |messages| ==> messages[i].role == "user")
    ensures forall j :: (if i < |messages| then i < j else 0 <= j) && j < |messages| ==> messages[j].role != "user"
  {
    if messages == [] then 0
    else if messages[|messages| - 1].role == "user" then |messages| - 1
    else var i := LastUser(messages[..|messages| - 1]); if i < |messages| - 1 then i else |messages|
  }

  function UserText(messages: seq<Message>): string {
    var i := LastUser(messages);
    if i < |messages| then ContentText(messages[i].content) else ""
  }

  function CacheText(messages: seq<Message>): string {
    if UserText(messages) == "" then ""
    else if SystemPrompt(messages) != "" then SystemPrompt(messages) + "\n" + UserText(messages)
    else UserText(messages)
  }

  lemma {:induction false} SystemPromptSnoc(s: seq<Message>, m: Message)
    ensures SystemPrompt(s + [m]) == if SystemPrompt(s) != "" then SystemPrompt(s)
                                     else if m.role == "system" then ContentText(m.content) else ""
  {
    if s == [] {
      assert (s + [m])[1..] == [];
    } else {
      assert (s + [m])[1..] == s[1..] + [m];
      SystemPromptSnoc(s[1..], m);
    }
  }

  method BuildCacheText(messages: seq<Message>) returns (text: string)
    ensures text == CacheText(messages)
  {
    var systemPrompt := "";
    var lastUser := "";
    for i := 0 to |messages|
      invariant systemPrompt == SystemPrompt(messages[..i])
      invariant lastUser == UserText(messages[..i])
    {
      var m := messages[i];
      assert messages[..i + 1] == messages[..i] + [m];
      SystemPromptSnoc(messages[..i], m);
      assert messages[..i + 1][..|messages[..i + 1]| - 1] == messages[..i];
      if m.role == "system" && systemPrompt == "" {
        systemPrompt := ContentText(m.content);
      }
      if m.role == "user" {
        lastUser := ContentText(m.content);
      }
    }
    assert messages[..|messages|] == messages;
    if lastUser == "" {
      return "";
    }
    return if systemPrompt != "" then systemPrompt + "\n" + lastUser else lastUser;
  }

  /** The system prompt is part of what is embedded: of two conversations that end in the same question, the texts to
      embed are the same exactly if the system prompts are. */
  lemma SystemPromptCounts(a: seq<Message>, b: seq<Message>)
    requires UserText(a) == UserText(b) != ""
    ensures CacheText(a) == CacheText(b) <==> SystemPrompt(a) == SystemPrompt(b)
  {
    var x, y, user := SystemPrompt(a), SystemPrompt(b), UserText(a);
    if x != "" && y != "" && CacheText(a) == CacheText(b) {
      var tail := "\n" + user;
      assert x + "\n" + user == x + tail && y + "\n" + user == y + tail;
      assert |x + tail| == |y + tail|;
      assert x == (x + tail)[..|x|] && y == (y + tail)[..|y|];
    }
  }

  /** The message can give the system prompt. */
  predicate SystemText(m: Message) { m.role == "system" && ContentText(m.content) != "" }

  /** The system prompt is the text of the first system message that has any, wherever it stands. */
  lemma {:induction false} SystemPromptIsFirst(messages: seq<Message>, i: nat)
    ensures SystemPrompt(messages) == "" <==> forall j :: 0 <= j < |messages| ==> !SystemText(messages[j])
    ensures i < |messages| && SystemText(messages[i]) && (forall j :: 0 <= j < i ==> !SystemText(messages[j])) ==>
      SystemPrompt(messages) == ContentText(messages[i].content)
  {
    if messages != [] {
      SystemPromptIsFirst(messages[1..], if i > 0 then i - 1 else 0);
      assert forall j :: 1 <= j < |messages| ==> messages[j] == messages[1..][j - 1];
    }
  }

  // ---------------------------------------------------------------------------
  // The fingerprint of the context
  // ---------------------------------------------------------------------------

  /** The turns before the last user message; none without a user message. */
  function Prior(messages: seq<Message>): seq<Message> {
    var i := LastUser(messages);
    if i < |messages| then messages[..i] else []
  }

  /** What of a message enters the fingerprint. */
  datatype Turn = Turn(role: string, text: string)

  function Turns(messages: seq<Message>): seq<Turn> {
    seq(|messages|, i requires 0 <= i < |messages| => Turn(messages[i].role, ContentText(messages[i].content)))
  }

  function Render(t: Turn): string { t.role + ":" + t.text }

  function Rendered(turns: seq<Turn>): seq<string> {
    seq(|turns|, i requires 0 <= i < |turns| => Render(turns[i]))
  }

  function ByName(): (string, string) -> bool { (a: string, b: string) => LexLe(a, b) }

  function ToolText(tools: seq<string>): string { Join(",", Sort(tools, ByName())) }

  function FingerprintText(turns: seq<Turn>, tools: seq<string>): string {
    Join("|", Rendered(turns)) + (if tools == [] then "" else "|tools:" + ToolText(tools))
  }

  method BuildFingerprintText(messages: seq<Message>, tools: seq<string>) returns (text: string)
    ensures text == FingerprintText(Turns(Prior(messages)), tools)
  {
    var lastUser := -1;
    var i := |messages|;
    while i > 0
      invariant 0 <= i <= |messages| && lastUser == -1
      invariant forall j :: i <= j < |messages| ==> messages[j].role != "user"
    {
      i := i - 1;
      if messages[i].role == "user" {
        lastUser := i;
        break;
      }
    }
    var prior := if lastUser > 0 then messages[..lastUser] else [];
    assert prior == Prior(messages);
    text := Join("|", Rendered(Turns(prior)));
    if tools != [] {
      text := text + "|tools:" + Join(",", Sort(tools, ByName()));
      assert text == FingerprintText(Turns(prior), tools) by {
        var a, b, c := Join("|", Rendered(Turns(prior))), "|tools:", ToolText(tools);
        assert a + b + c == a + (b + c);
      }
    }
  }

  // ---------------------------------------------------------------------------
  // Different contexts, different fingerprints
  // ---------------------------------------------------------------------------

  /** No separator inside a field, and no role that reads like the mark before the tool names. */
  ghost predicate Clean(turns: seq<Turn>, tools: seq<string>) {
    && (forall i :: 0 <= i < |turns| ==> CleanTurn(turns[i]))
    && (forall i :: 0 <= i < |tools| ==> Free(tools[i], '|') && Free(tools[i], ','))
  }

  predicate CleanTurn(t: Turn) { Free(t.role, '|') && Free(t.role, ':') && Free(t.text, '|') && t.role != "tools" }

  function ToolPart(tools: seq<string>): string { "tools:" + ToolText(tools) }

  /** The fingerprint text as parts joined by `|`. */
  function AllParts(turns: seq<Turn>, tools: seq<string>): seq<string> {
    if tools == [] then Rendered(turns)
    else (if turns == [] then [""] else Rendered(turns)) + [ToolPart(tools)]
  }

  lemma {:induction false} JoinSnoc(sep: string, parts: seq<string>, last: string)
    requires parts != []
    ensures Join(sep, parts + [last]) == Join(sep, parts) + (sep + last)
  {
    if |parts| == 1 {
      assert (parts + [last])[1..] == [last];
      assert parts[0] + sep + last == parts[0] + (sep + last);
    } else {
      assert (parts + [last])[1..] == parts[1..] + [last];
      JoinSnoc(sep, parts[1..], last);
      assert (parts[0] + sep) + (Join(sep, parts[1..]) + (sep + last))
          == (parts[0] + sep + Join(sep, parts[1..])) + (sep + last);
    }
  }

  lemma TextIsJoined(turns: seq<Turn>, tools: seq<string>)
    ensures FingerprintText(turns, tools) == Join("|", AllParts(turns, tools))
  {
    if tools != [] {
      var front := if turns == [] then [""] else Rendered(turns);
      JoinSnoc("|", front, ToolPart(tools));
      assert Join("|", front) == Join("|", Rendered(turns));
      assert "|" + ("tools:" + ToolText(tools)) == "|tools:" + ToolText(tools);
    }
  }

  lemma {:induction false} JoinFree(sep: string, parts: seq<string>, c: char)
    requires Free(sep, c) && forall i :: 0 <= i < |parts| ==> Free(parts[i], c)
    ensures Free(Join(sep, parts), c)
  {
    if |parts| > 1 {
      JoinFree(sep, parts[1..], c);
    }
  }

  lemma SortedAreTools(tools: seq<string>)
    ensures |Sort(tools, ByName())| == |tools|
    ensures forall i :: 0 <= i < |tools| ==> Sort(tools, ByName())[i] in tools
  {
    SortMembers(tools, ByName());
    SameElements(Sort(tools, ByName()), tools);
  }

  lemma PartsAreFree(turns: seq<Turn>, tools: seq<string>)
    requires Clean(turns, tools)
    ensures forall i :: 0 <= i < |AllParts(turns, tools)| ==> Free(AllParts(turns, tools)[i], '|')
  {
    SortedAreTools(tools);
    JoinFree(",", Sort(tools, ByName()), '|');
    forall i | 0 <= i < |turns| ensures Free(Render(turns[i]), '|') {
      assert CleanTurn(turns[i]);
    }
    assert Free(ToolPart(tools), '|');
  }

  lemma RenderInjective(t: Turn, u: Turn)
    requires CleanTurn(t) && CleanTurn(u) && Render(t) == Render(u)
    ensures t == u
  {
    assert Render(t) == t.role + (":" + t.text) && Render(u) == u.role + (":" + u.text);
    CutUnique(t.role, u.role, ":" + t.text, ":" + u.text, ':');
    assert (":" + t.text)[1..] == t.text && (":" + u.text)[1..] == u.text;
  }

  lemma TurnIsNoToolPart(t: Turn, tools: seq<string>)
    requires CleanTurn(t)
    ensures Render(t) != ToolPart(tools)
  {
    assert Render(t) == t.role + (":" + t.text);
    assert ToolPart(tools) == "tools" + (":" + ToolText(tools));
    if Render(t) == ToolPart(tools) {
      CutUnique(t.role, "tools", ":" + t.text, ":" + ToolText(tools), ':');
    }
  }

  lemma SomePartsSomeText(turns: seq<Turn>, tools: seq<string>)
    ensures FingerprintText(turns, tools) == "" <==> turns == [] && tools == []
  {
    if tools == [] && turns != [] {
      assert |Join("|", Rendered(turns))| >= |Render(turns[0])| >= 1;
    }
  }

  lemma SameRendered(t: seq<Turn>, u: seq<Turn>)
    requires Clean(t, []) && Clean(u, []) && Rendered(t) == Rendered(u)
    ensures t == u
  {
    assert |t| == |Rendered(t)| == |Rendered(u)| == |u|;
    forall i | 0 <= i < |t| ensures t[i] == u[i] {
      assert Rendered(t)[i] == Render(t[i]) && Rendered(u)[i] == Render(u[i]);
      RenderInjective(t[i], u[i]);
    }
  }

  lemma LastPart(turns: seq<Turn>, tools: seq<string>)
    requires Clean(turns, tools) && AllParts(turns, tools) != []
    ensures var parts := AllParts(turns, tools);
      tools != [] <==> exists names :: parts[|parts| - 1] == ToolPart(names)
  {
    if tools == [] {
      var t := turns[|turns| - 1];
      forall names ensures Render(t) != ToolPart(names) {
        TurnIsNoToolPart(t, names);
      }
    }
  }

  /** The parts tell the turns, and the tool text if there is any. */
  lemma PartsDetermine(t: seq<Turn>, tools: seq<string>, u: seq<Turn>, others: seq<string>)
    requires Clean(t, tools) && Clean(u, others) && AllParts(t, tools) == AllParts(u, others) != []
    ensures t == u && (tools == [] <==> others == []) && (tools != [] ==> ToolText(tools) == ToolText(others))
  {
    var a, b := AllParts(t, tools), AllParts(u, others);
    LastPart(t, tools);
    LastPart(u, others);
    assert tools == [] <==> others == [];
    if tools != [] {
      assert ToolPart(tools) == a[|a| - 1] == b[|b| - 1] == ToolPart(others);
      assert ToolText(tools) == ToolPart(tools)[6..] == ToolPart(others)[6..] == ToolText(others);
      var front, back := a[..|a| - 1], b[..|b| - 1];
      assert front == if t == [] then [""] else Rendered(t);
      assert back == if u == [] then [""] else Rendered(u);
      assert t == [] <==> front[0] == "";
      assert u == [] <==> back[0] == "";
      assert Rendered(t) == Rendered(u);
    }
    SameRendered(t, u);
  }

  lemma ByNameIsOrder()
    ensures TotalPreorder(ByName())
    ensures forall a, b :: ByName()(a, b) && ByName()(b, a) ==> a == b
  {
    forall a, b ensures (ByName()(a, b) || ByName()(b, a)) && (ByName()(a, b) && ByName()(b, a) ==> a == b) {
      LexTotal(a, b);
    }
    forall a, b, c | ByName()(a, b) && ByName()(b, c) ensures ByName()(a, c) {
      LexTransitive(a, b, c);
    }
  }

  /** Sorted tool names, joined: the same text exactly for the same names. */
  lemma SameTools(a: seq<string>, b: seq<string>)
    requires a != [] && b != []
    requires (forall i :: 0 <= i < |a| ==> Free(a[i], ',')) && (forall i :: 0 <= i < |b| ==> Free(b[i], ','))
    ensures ToolText(a) == ToolText(b) <==> multiset(a) == multiset(b)
  {
    var sa, sb := Sort(a, ByName()), Sort(b, ByName());
    ByNameIsOrder();
    SortCorrect(a, ByName());
    SortCorrect(b, ByName());
    SortedAreTools(a);
    SortedAreTools(b);
    if ToolText(a) == ToolText(b) {
      JoinInjective(sa, sb, ',');
    }
    if multiset(a) == multiset(b) {
      SortedIsUnique(sa, sb, ByName());
    }
  }

  /** Of clean contexts, two have the same fingerprint text exactly when they have the same turns and the same tools,
      in whatever order the tools are named. */
  lemma FingerprintsTellContextsApart(t: seq<Turn>, tools: seq<string>, u: seq<Turn>, others: seq<string>)
    requires Clean(t, tools) && Clean(u, others)
    ensures FingerprintText(t, tools) == FingerprintText(u, others) <==> t == u && multiset(tools) == multiset(others)
  {
    assert multiset(tools) == multiset(others) ==> |tools| == |others| by {
      assert |multiset(tools)| == |tools| && |multiset(others)| == |others|;
    }
    if tools != [] && others != [] {
      SameTools(tools, others);
    }
    if FingerprintText(t, tools) == FingerprintText(u, others) {
      SomePartsSomeText(t, tools);
      SomePartsSomeText(u, others);
      if FingerprintText(t, tools) != "" {
        TextIsJoined(t, tools);
        TextIsJoined(u, others);
        PartsAreFree(t, tools);
        PartsAreFree(u, others);
        JoinInjective(AllParts(t, tools), AllParts(u, others), '|');
        PartsDetermine(t, tools, u, others);
      }
    }
  }

  /** Turns after the last user message enter neither the fingerprint nor, unless they bring the first system prompt,
      the embedded text: conversations that differ only there share their cache entries. */
  lemma TrailingTurnsAreIgnored(messages: seq<Message>, tail: seq<Message>)
    requires forall i :: 0 <= i < |tail| ==> tail[i].role != "user"
    ensures Prior(messages + tail) == Prior(messages) && UserText(messages + tail) == UserText(messages)
    ensures (forall i :: 0 <= i < |tail| ==> tail[i].role != "system") ==>
      CacheText(messages + tail) == CacheText(messages)
    decreases |tail|
  {
    if tail == [] {
      assert messages + tail == messages;
    } else {
      var front, m := tail[..|tail| - 1], tail[|tail| - 1];
      TrailingTurnsAreIgnored(messages, front);
      assert messages + tail == (messages + front) + [m];
      SystemPromptSnoc(messages + front, m);
      var all := messages + tail;
      assert all[..|all| - 1] == messages + front;
      assert LastUser(all) < |all| ==> all[..LastUser(all)] == (messages + front)[..LastUser(all)];
      if forall i :: 0 <= i < |tail| ==> tail[i].role != "system" {
        assert CacheText(messages + front) == CacheText(messages);
        assert tail[|tail| - 1].role != "system";
      }
    }
  }
}
