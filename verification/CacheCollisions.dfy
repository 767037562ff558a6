/** Different contexts with one fingerprint: a family for each way of not being clean, and which contexts collide. */
module CacheCollisions {
  import opened StableSort
  import opened Text
  import opened CacheKeys

  // ---------------------------------------------------------------------------
  // Texts in context
  // ---------------------------------------------------------------------------

  lemma {:induction false} JoinAppend(sep: string, a: seq<string>, b: seq<string>)
    requires a != [] && b != []
    ensures Join(sep, a + b) == Join(sep, a) + (sep + Join(sep, b))
    decreases |a|
  {
    if |a| == 1 {
      assert (a + b)[1..] == b;
      assert a[0] + sep + Join(sep, b) == a[0] + (sep + Join(sep, b));
    } else {
      assert (a + b)[1..] == a[1..] + b;
      JoinAppend(sep, a[1..], b);
      var x, y, z := a[0] + sep, Join(sep, a[1..]), sep + Join(sep, b);
      assert x + (y + z) == (x + y) + z;
    }
  }

  lemma JoinFront(sep: string, x: seq<string>, y: seq<string>, post: seq<string>)
    requires x != [] && y != [] && Join(sep, x) == Join(sep, y)
    ensures Join(sep, x + post) == Join(sep, y + post)
  {
    if post == [] {
      assert x + post == x && y + post == y;
    } else {
      JoinAppend(sep, x, post);
      JoinAppend(sep, y, post);
    }
  }

  lemma JoinBack(sep: string, pre: seq<string>, x: seq<string>, y: seq<string>)
    requires x != [] && y != [] && Join(sep, x) == Join(sep, y)
    ensures Join(sep, pre + x) == Join(sep, pre + y)
  {
    if pre == [] {
      assert pre + x == x && pre + y == y;
    } else {
      JoinAppend(sep, pre, x);
      JoinAppend(sep, pre, y);
    }
  }

  lemma RenderedAppend(a: seq<Turn>, b: seq<Turn>)
    ensures Rendered(a + b) == Rendered(a) + Rendered(b)
  {
  }

  /** Turns with one joined text are interchangeable anywhere in a context. */
  lemma SameTextAnywhere(pre: seq<Turn>, x: seq<Turn>, y: seq<Turn>, post: seq<Turn>, tools: seq<string>)
    requires x != [] && y != [] && Join("|", Rendered(x)) == Join("|", Rendered(y))
    ensures FingerprintText(pre + x + post, tools) == FingerprintText(pre + y + post, tools)
  {
    RenderedAppend(pre + x, post);
    RenderedAppend(pre, x);
    RenderedAppend(pre + y, post);
    RenderedAppend(pre, y);
    JoinBack("|", Rendered(pre), Rendered(x), Rendered(y));
    JoinFront("|", Rendered(pre) + Rendered(x), Rendered(pre) + Rendered(y), Rendered(post));
  }

  lemma OneTurn(t: Turn)
    ensures Join("|", Rendered([t])) == Render(t)
  {
    assert Rendered([t]) == [Render(t)];
  }

  lemma TwoTurns(t: Turn, u: Turn)
    ensures Join("|", Rendered([t, u])) == Render(t) + "|" + Render(u)
  {
    assert Rendered([t, u]) == [Render(t), Render(u)] && [Render(t), Render(u)][1..] == [Render(u)];
  }

  // ---------------------------------------------------------------------------
  // One family for each way of not being clean
  // ---------------------------------------------------------------------------

  /** A text that quotes a turn behind a bar. */
  function Quote(text: string, quoted: Turn): string { text + "|" + Render(quoted) }

  function Quoting(role: string, text: string, quoted: Turn): Turn { Turn(role, Quote(text, quoted)) }

  lemma QuotingText(role: string, text: string, quoted: Turn)
    ensures Render(Quoting(role, text, quoted)) == Render(Turn(role, text)) + "|" + Render(quoted)
  {
    var r := Render(quoted);
    assert role + ":" + (text + "|" + r) == (role + ":" + text) + "|" + r;
  }

  /** A bar in a content: quoting a turn reads like saying it. */
  lemma BarInContent(pre: seq<Turn>, role: string, text: string, quoted: Turn, post: seq<Turn>, tools: seq<string>)
    ensures FingerprintText(pre + [Quoting(role, text, quoted)] + post, tools)
         == FingerprintText(pre + [Turn(role, text), quoted] + post, tools)
  {
    QuotingText(role, text, quoted);
    OneTurn(Quoting(role, text, quoted));
    TwoTurns(Turn(role, text), quoted);
    SameTextAnywhere(pre, [Quoting(role, text, quoted)], [Turn(role, text), quoted], post, tools);
  }

  /** A colon in a role: the role ends wherever it is taken to. */
  lemma ColonInRole(pre: seq<Turn>, a: string, b: string, c: string, post: seq<Turn>, tools: seq<string>)
    ensures FingerprintText(pre + [Turn(a + ":" + b, c)] + post, tools)
         == FingerprintText(pre + [Turn(a, b + ":" + c)] + post, tools)
  {
    assert (a + ":" + b) + ":" + c == a + ":" + (b + ":" + c);
    OneTurn(Turn(a + ":" + b, c));
    OneTurn(Turn(a, b + ":" + c));
    SameTextAnywhere(pre, [Turn(a + ":" + b, c)], [Turn(a, b + ":" + c)], post, tools);
  }

  /** A bar in a role: what is before it can as well end the turn before. */
  lemma BarInRole(pre: seq<Turn>, role: string, text: string, a: string, b: string, c: string, post: seq<Turn>,
                  tools: seq<string>)
    ensures FingerprintText(pre + [Turn(role, text), Turn(a + "|" + b, c)] + post, tools)
         == FingerprintText(pre + [Turn(role, text + "|" + a), Turn(b, c)] + post, tools)
  {
    var head := role + ":" + text;
    assert head + "|" + ((a + "|" + b) + ":" + c) == (role + ":" + (text + "|" + a)) + "|" + (b + ":" + c);
    TwoTurns(Turn(role, text), Turn(a + "|" + b, c));
    TwoTurns(Turn(role, text + "|" + a), Turn(b, c));
    SameTextAnywhere(pre, [Turn(role, text), Turn(a + "|" + b, c)], [Turn(role, text + "|" + a), Turn(b, c)], post, tools);
  }

  /** A role named `tools`: a last turn under it reads like the tool names. */
  lemma RoleNamedTools(turns: seq<Turn>, tools: seq<string>)
    requires turns != [] && tools != []
    ensures FingerprintText(turns + [Turn("tools", ToolText(tools))], []) == FingerprintText(turns, tools)
  {
    var last := Turn("tools", ToolText(tools));
    OneTurn(last);
    RenderedAppend(turns, [last]);
    JoinAppend("|", Rendered(turns), Rendered([last]));
    assert "tools" + ":" == "tools:";
    assert "|" + ("tools:" + ToolText(tools)) == "|tools:" + ToolText(tools);
  }

  lemma SortOne(a: string)
    ensures Sort([a], ByName()) == [a]
  {
    assert [a][..0] == [];
    assert Sort([a], ByName()) == Insert(Sort([a][..0], ByName()), a, ByName());
  }

  lemma SortTwo(a: string, b: string)
    requires LexLe(a, b)
    ensures Sort([a, b], ByName()) == [a, b]
  {
    SortOne(a);
    assert [a, b][..1] == [a];
  }

  /** A bar in a tool name: the names can begin at a later mark, and what is before it end the last content. */
  lemma BarInTool(turns: seq<Turn>, role: string, text: string, a: string, b: string)
    ensures FingerprintText(turns + [Turn(role, text)], [a + "|tools:" + b])
         == FingerprintText(turns + [Turn(role, text + ("|tools:" + a))], [b])
  {
    var t, u, mark := Turn(role, text), Turn(role, text + ("|tools:" + a)), "|tools:";
    SortOne(a + "|tools:" + b);
    SortOne(b);
    LastTurnLonger(turns, role, text, mark + a);
    var x, y := Join("|", Rendered(turns + [t])), Join("|", Rendered(turns + [u]));
    assert ToolText([b]) == b && ToolText([a + mark + b]) == a + mark + b;
    hide Join, Rendered, Sort;
    Regroup(x, mark, a, b);
  }

  lemma Regroup(x: string, mark: string, a: string, b: string)
    ensures x + (mark + (a + mark + b)) == (x + (mark + a)) + (mark + b)
  {
  }

  /** Lengthening the last content lengthens the joined text. */
  lemma LastTurnLonger(turns: seq<Turn>, role: string, text: string, more: string)
    ensures Join("|", Rendered(turns + [Turn(role, text + more)])) == Join("|", Rendered(turns + [Turn(role, text)])) + more
  {
    var t, u, front := Turn(role, text), Turn(role, text + more), Rendered(turns);
    RenderedAppend(turns, [t]);
    RenderedAppend(turns, [u]);
    OneTurn(t);
    OneTurn(u);
    assert Render(u) == Render(t) + more;
    if front == [] {
      assert front + Rendered([t]) == Rendered([t]) && front + Rendered([u]) == Rendered([u]);
    } else {
      JoinAppend("|", front, Rendered([t]));
      JoinAppend("|", front, Rendered([u]));
      assert Join("|", front) + ("|" + (Render(t) + more)) == Join("|", front) + ("|" + Render(t)) + more;
    }
  }

  /** A comma in a tool name: one name reads like two. */
  lemma CommaInTool(turns: seq<Turn>, a: string, b: string)
    requires LexLe(a, b)
    ensures FingerprintText(turns, [a + "," + b]) == FingerprintText(turns, [a, b])
  {
    SortOne(a + "," + b);
    SortTwo(a, b);
    var parts := [a, b];
    assert parts[1..] == [b];
    assert Join(",", parts) == a + "," + b by {
      assert Join(",", parts[1..]) == b;
    }
    assert ToolText([a + "," + b]) == a + "," + b == ToolText([a, b]);
  }

  // ---------------------------------------------------------------------------
  // Which contexts collide
  // ---------------------------------------------------------------------------

  predicate RolesFrom(turns: seq<Turn>, roles: set<string>) {
    forall i :: 0 <= i < |turns| ==> turns[i].role in roles
  }

  /** The text quotes a turn of one of the roles behind a bar. */
  ghost predicate Quotes(text: string, roles: set<string>) {
    exists before, quoted: Turn :: quoted.role in roles && text == Quote(before, quoted)
  }

  /** A different context, of the same roles and with the same tools, has the same fingerprint. */
  ghost predicate Collides(turns: seq<Turn>, tools: seq<string>, roles: set<string>) {
    exists others :: RolesFrom(others, roles) && others != turns && FingerprintText(others, tools) == FingerprintText(turns, tools)
  }

  lemma SameSuffix(t: seq<Turn>, u: seq<Turn>, tools: seq<string>)
    ensures FingerprintText(t, tools) == FingerprintText(u, tools) <==> Join("|", Rendered(t)) == Join("|", Rendered(u))
  {
    var a, b := Join("|", Rendered(t)), Join("|", Rendered(u));
    var suffix := if tools == [] then "" else "|tools:" + ToolText(tools);
    assert FingerprintText(t, tools) == a + suffix && FingerprintText(u, tools) == b + suffix;
    if a + suffix == b + suffix {
      assert |a| == |b|;
      assert a == (a + suffix)[..|a|] && b == (b + suffix)[..|b|];
    }
  }

  lemma QuotingCollides(pre: seq<Turn>, role: string, text: string, quoted: Turn, post: seq<Turn>, tools: seq<string>,
                        roles: set<string>)
    requires var short, long := pre + [Quoting(role, text, quoted)] + post, pre + [Turn(role, text), quoted] + post;
      RolesFrom(short, roles) && RolesFrom(long, roles)
    ensures Collides(pre + [Quoting(role, text, quoted)] + post, tools, roles)
    ensures Collides(pre + [Turn(role, text), quoted] + post, tools, roles)
  {
    var short, long := pre + [Quoting(role, text, quoted)] + post, pre + [Turn(role, text), quoted] + post;
    BarInContent(pre, role, text, quoted, post, tools);
    assert |long| == |short| + 1;
  }

  lemma LongerCollides(turns: seq<Turn>, tools: seq<string>, roles: set<string>)
    requires RolesFrom(turns, roles) && |turns| >= 2
    ensures Collides(turns, tools, roles)
  {
    var post := turns[2..];
    assert turns == [] + [Turn(turns[0].role, turns[0].text), turns[1]] + post;
    assert RolesFrom([] + [Quoting(turns[0].role, turns[0].text, turns[1])] + post, roles);
    QuotingCollides([], turns[0].role, turns[0].text, turns[1], post, tools, roles);
  }

  lemma SingleQuoteCollides(t: Turn, tools: seq<string>, roles: set<string>)
    requires t.role in roles && Quotes(t.text, roles)
    ensures Collides([t], tools, roles)
  {
    var before, quoted: Turn :| quoted.role in roles && t.text == Quote(before, quoted);
    assert [] + [Quoting(t.role, before, quoted)] + [] == [t];
    QuotingCollides([], t.role, before, quoted, [], tools, roles);
  }

  /** What a single turn shares its text with quotes, or is that turn. */
  lemma SingleSharesIfQuotes(t: Turn, others: seq<Turn>, roles: set<string>)
    requires forall r :: r in roles ==> Free(r, ':')
    requires t.role in roles && RolesFrom(others, roles) && Join("|", Rendered(others)) == Render(t)
    ensures others == [t] || Quotes(t.text, roles)
  {
    EmptyIsAlone(others);
    assert |Render(t)| > 0;
    if |others| == 1 {
      assert others == [others[0]];
      OneTurn(others[0]);
      assert Render(others[0]) + "" == Render(others[0]) && others[0].text + "" == others[0].text;
      SplitAtRole(t, others[0], "");
    } else if |others| >= 2 {
      var u, rest := others[0], others[1..];
      assert Rendered(others)[1..] == Rendered(rest);
      var tail := "|" + Join("|", Rendered(rest));
      assert Render(t) == Render(u) + tail by {
        assert Render(u) + "|" + Join("|", Rendered(rest)) == Render(u) + tail;
      }
      SplitAtRole(t, u, tail);
      JoinStartsWithTurn(rest);
      var quoted: Turn :| quoted.role == rest[0].role && Join("|", Rendered(rest)) == Render(quoted);
      assert t.text == Quote(u.text, quoted) by {
        assert u.text + ("|" + Render(quoted)) == u.text + "|" + Render(quoted);
      }
    }
  }

  lemma SplitAtRole(t: Turn, u: Turn, tail: string)
    requires Free(t.role, ':') && Free(u.role, ':') && Render(t) == Render(u) + tail
    ensures t.role == u.role && t.text == u.text + tail
  {
    assert Render(t) == t.role + (":" + t.text);
    assert Render(u) + tail == u.role + (":" + (u.text + tail));
    CutUnique(t.role, u.role, ":" + t.text, ":" + (u.text + tail), ':');
    assert (":" + t.text)[1..] == t.text && (":" + (u.text + tail))[1..] == u.text + tail;
  }

  /** A joined text reads like a single turn of its first role. */
  lemma JoinStartsWithTurn(turns: seq<Turn>)
    requires turns != []
    ensures exists t: Turn :: t.role == turns[0].role && Join("|", Rendered(turns)) == Render(t)
  {
    var u := turns[0];
    if |turns| == 1 {
      assert turns == [u];
      OneTurn(u);
    } else {
      var tail := "|" + Join("|", Rendered(turns)[1..]);
      var t := Turn(u.role, u.text + tail);
      assert Render(u) + "|" + Join("|", Rendered(turns)[1..]) == Render(u) + tail;
      assert u.role + ":" + (u.text + tail) == (u.role + ":" + u.text) + tail;
      assert Join("|", Rendered(turns)) == Render(t);
    }
  }

  /** For roles without a colon, as a chat has: a context shares its fingerprint with another one exactly if it has two
      turns or more, or a single one that quotes a turn behind a bar. */
  lemma CollidesIff(turns: seq<Turn>, tools: seq<string>, roles: set<string>)
    requires RolesFrom(turns, roles) && forall r :: r in roles ==> Free(r, ':')
    ensures Collides(turns, tools, roles) <==> |turns| >= 2 || (|turns| == 1 && Quotes(turns[0].text, roles))
  {
    if |turns| >= 2 {
      LongerCollides(turns, tools, roles);
    } else {
      if |turns| == 1 && Quotes(turns[0].text, roles) {
        assert turns == [turns[0]];
        SingleQuoteCollides(turns[0], tools, roles);
      }
      forall others | RolesFrom(others, roles) && FingerprintText(others, tools) == FingerprintText(turns, tools)
        ensures others == turns || (|turns| == 1 && Quotes(turns[0].text, roles))
      {
        SameSuffix(turns, others, tools);
        if turns == [] {
          EmptyIsAlone(others);
        } else {
          assert turns == [turns[0]];
          OneTurn(turns[0]);
          SingleSharesIfQuotes(turns[0], others, roles);
        }
      }
    }
  }

  lemma EmptyIsAlone(others: seq<Turn>)
    ensures Join("|", Rendered(others)) == "" <==> others == []
  {
    SomePartsSomeText(others, []);
  }
}
