/** The bracket and parenthesis scanner that finds inline link destinations in Markdown. */
module MarkdownLinks {
  import opened Common

  // ----- the scanner by position

  /** Just past the parenthesis that closes `depth` open ones, if there is one. */
  function Closing(content: string, i: nat, depth: nat): (end: Option<nat>)
    requires depth > 0
    ensures end.Some? ==> i < end.value <= |content|
    decreases |content| - i
  {
    if i >= |content| then None
    else if content[i] == '\\' then Closing(content, i + 2, depth)
    else if content[i] == '(' then Closing(content, i + 1, depth + 1)
    else if content[i] == ')' then if depth == 1 then Some(i + 1) else Closing(content, i + 1, depth - 1)
    else Closing(content, i + 1, depth)
  }

  /** The destinations in the order in which their closing parentheses are passed; `None` is an unclosed link. */
  function Scan(content: string, i: nat, brackets: nat): Option<seq<string>>
    decreases |content| - i
  {
    if i >= |content| then Some([])
    else if content[i] == '\\' then Scan(content, i + 2, brackets)
    else if content[i] == '[' then Scan(content, i + 1, brackets + 1)
    else if content[i] != ']' || brackets == 0 then Scan(content, i + 1, brackets)
    else if i + 1 == |content| || content[i + 1] != '(' then Scan(content, i + 1, brackets - 1)
    else
      var end := Closing(content, i + 2, 1);
      if end.None? then None
      else Prepend([content[i + 2..end.value - 1]], Scan(content, end.value, brackets - 1))
  }

  function Prepend(links: seq<string>, later: Option<seq<string>>): Option<seq<string>> {
    if later.None? then None else Some(links + later.value)
  }

  // ----- nested labels and their text

  /** A destination: plain characters, escaped characters, and balanced groups. */
  datatype Piece = Plain(c: char) | Escaped(c: char) | Group(inner: seq<Piece>)

  /** Text, a bracketed label without a destination, or a link whose label may hold further links. */
  datatype Inline = Text(text: string) | Bare(inner: seq<Inline>) | Link(inner: seq<Inline>, target: seq<Piece>)

  predicate ProperPieces(ps: seq<Piece>) {
    forall p :: p in ps ==> Proper(p)
  }

  predicate Proper(p: Piece) {
    match p
    case Plain(c) => c !in {'\\', '(', ')'}
    case Escaped(_) => true
    case Group(inner) => forall q :: q in inner ==> Proper(q)
  }

  predicate WellFormed(t: Inline) {
    match t
    case Text(_) => true
    case Bare(inner) => (forall u :: u in inner ==> WellFormed(u)) && Spaced(inner)
    case Link(inner, target) => (forall u :: u in inner ==> WellFormed(u)) && Spaced(inner) && ProperPieces(target)
  }

  /** What follows a label without a destination does not look like one. */
  predicate Spaced(ts: seq<Inline>) {
    ts == [] ||
    ((ts[0].Bare? ==> RenderAll(ts[1..]) == "" || RenderAll(ts[1..])[0] != '(') && Spaced(ts[1..]))
  }

  function RenderPiece(p: Piece): string
    decreases p, 1
  {
    match p
    case Plain(c) => [c]
    case Escaped(c) => ['\\', c]
    case Group(inner) => "(" + RenderPieces(inner) + ")"
  }

  function RenderPieces(ps: seq<Piece>): string
    decreases ps, 0
  {
    if ps == [] then "" else RenderPiece(ps[0]) + RenderPieces(ps[1..])
  }

  function EscapeChar(c: char): string {
    if c in {'\\', '[', ']'} then ['\\', c] else [c]
  }

  function Escape(text: string): string {
    if text == "" then "" else EscapeChar(text[0]) + Escape(text[1..])
  }

  function Render(t: Inline): string
    decreases t, 1
  {
    match t
    case Text(text) => Escape(text)
    case Bare(inner) => "[" + RenderAll(inner) + "]"
    case Link(inner, target) => "[" + RenderAll(inner) + "](" + RenderPieces(target) + ")"
  }

  function RenderAll(ts: seq<Inline>): string
    decreases ts, 0
  {
    if ts == [] then "" else Render(ts[0]) + RenderAll(ts[1..])
  }

  /** The destinations of a tree: inner before outer, left to right. */
  function Targets(t: Inline): seq<string>
    decreases t, 1
  {
    match t
    case Text(_) => []
    case Bare(inner) => AllTargets(inner)
    case Link(inner, target) => AllTargets(inner) + [RenderPieces(target)]
  }

  function AllTargets(ts: seq<Inline>): seq<string>
    decreases ts, 0
  {
    if ts == [] then [] else Targets(ts[0]) + AllTargets(ts[1..])
  }

  // ----- the scanner reads back what was rendered

  /** The text r stands in the content at position i. */
  predicate At(content: string, i: nat, r: string) {
    i + |r| <= |content| && content[i..i + |r|] == r
  }

  lemma AtSplits(content: string, i: nat, a: string, b: string)
    requires At(content, i, a + b)
    ensures At(content, i, a) && At(content, i + |a|, b)
  {
    var whole := content[i..i + |a + b|];
    assert whole[..|a|] == a && whole[|a|..] == b;
    assert content[i..i + |a|] == whole[..|a|];
    assert content[i + |a|..i + |a| + |b|] == whole[|a|..];
  }

  lemma AtHead(content: string, i: nat, r: string)
    requires At(content, i, r) && r != ""
    ensures i < |content| && content[i] == r[0]
  {
    assert content[i..i + |r|][0] == r[0];
  }

  lemma {:induction false} ClosingOfPiece(content: string, i: nat, p: Piece, depth: nat)
    requires Proper(p) && depth > 0 && At(content, i, RenderPiece(p))
    ensures Closing(content, i, depth) == Closing(content, i + |RenderPiece(p)|, depth)
    decreases p, 1
  {
    AtHead(content, i, RenderPiece(p));
    match p
    case Plain(c) =>
    case Escaped(c) =>
    case Group(inner) =>
      var body := RenderPieces(inner);
      assert RenderPiece(p) == "(" + (body + ")");
      AtSplits(content, i, "(", body + ")");
      AtSplits(content, i + 1, body, ")");
      ClosingOfPieces(content, i + 1, inner, depth + 1);
      AtHead(content, i + 1 + |body|, ")");
  }

  lemma {:induction false} ClosingOfPieces(content: string, i: nat, ps: seq<Piece>, depth: nat)
    requires ProperPieces(ps) && depth > 0 && At(content, i, RenderPieces(ps))
    ensures Closing(content, i, depth) == Closing(content, i + |RenderPieces(ps)|, depth)
    decreases ps, 0
  {
    if ps != [] {
      assert Proper(ps[0]);
      AtSplits(content, i, RenderPiece(ps[0]), RenderPieces(ps[1..]));
      ClosingOfPiece(content, i, ps[0], depth);
      ClosingOfPieces(content, i + |RenderPiece(ps[0])|, ps[1..], depth);
    }
  }

  lemma {:induction false} ScanOfText(content: string, i: nat, text: string, brackets: nat)
    requires At(content, i, Escape(text))
    ensures Scan(content, i, brackets) == Scan(content, i + |Escape(text)|, brackets)
    decreases |text|
  {
    if text != "" {
      AtSplits(content, i, EscapeChar(text[0]), Escape(text[1..]));
      AtHead(content, i, EscapeChar(text[0]));
      ScanOfText(content, i + |EscapeChar(text[0])|, text[1..], brackets);
    }
  }

  /** What stands at position i is not an opening parenthesis. */
  predicate NoParenthesis(content: string, i: nat) {
    i >= |content| || content[i] != '('
  }

  lemma RenderedStart(content: string, i: nat, r: string)
    requires At(content, i, r) && NoParenthesis(content, i + |r|) && (r == "" || r[0] != '(')
    ensures NoParenthesis(content, i)
  {
    if r != "" { AtHead(content, i, r); }
  }

  /** A closing bracket, a parenthesis, the text of a destination, and its closing parenthesis. */
  predicate DestinationStands(content: string, i: nat, t: string) {
    && i + 2 + |t| < |content| && content[i] == ']' && content[i + 1] == '(' && content[i + 2 + |t|] == ')'
    && At(content, i + 2, t)
  }

  /** The end of a label and its destination are read whole. */
  lemma ScanOfDestination(content: string, i: nat, target: seq<Piece>, brackets: nat)
    requires ProperPieces(target) && brackets > 0 && DestinationStands(content, i, RenderPieces(target))
    ensures Scan(content, i, brackets) ==
            Prepend([RenderPieces(target)], Scan(content, i + 3 + |RenderPieces(target)|, brackets - 1))
  {
    ClosingOfPieces(content, i + 2, target, 1);
  }

  lemma ScanOfOpening(content: string, i: nat, brackets: nat)
    requires i < |content| && content[i] == '['
    ensures Scan(content, i, brackets) == Scan(content, i + 1, brackets + 1)
  {
  }

  lemma ScanOfBareEnd(content: string, i: nat, brackets: nat)
    requires i < |content| && content[i] == ']' && brackets > 0 && NoParenthesis(content, i + 1)
    ensures Scan(content, i, brackets) == Scan(content, i + 1, brackets - 1)
  {
  }

  /** Where the parts of a bracketed label stand. */
  lemma BareStands(content: string, i: nat, inner: string)
    requires At(content, i, "[" + inner + "]")
    ensures LabelStands(content, i, inner)
  {
    assert "[" + inner + "]" == "[" + (inner + "]");
    AtSplits(content, i, "[", inner + "]");
    AtSplits(content, i + 1, inner, "]");
    AtHead(content, i, "[");
    AtHead(content, i + 1 + |inner|, "]");
  }

  predicate LabelStands(content: string, i: nat, inner: string) {
    i + 1 + |inner| < |content| && content[i] == '[' && content[i + 1 + |inner|] == ']' && At(content, i + 1, inner)
  }

  /** Where the parts of a link stand. */
  lemma LinkStands(content: string, i: nat, inner: string, t: string)
    requires At(content, i, "[" + inner + "](" + t + ")")
    ensures LabelStands(content, i, inner) && DestinationStands(content, i + 1 + |inner|, t)
  {
    LinkText(inner, t);
    AtSplits(content, i, "[" + inner + "]", "(" + t + ")");
    BareStands(content, i, inner);
    TargetStands(content, i + 2 + |inner|, t);
  }

  lemma LinkText(inner: string, t: string)
    ensures "[" + inner + "](" + t + ")" == ("[" + inner + "]") + ("(" + t + ")")
  {
  }

  lemma TargetStands(content: string, i: nat, t: string)
    requires At(content, i, "(" + t + ")")
    ensures i + 1 + |t| < |content| && content[i] == '(' && content[i + 1 + |t|] == ')' && At(content, i + 1, t)
  {
    assert "(" + t + ")" == "(" + (t + ")");
    AtSplits(content, i, "(", t + ")");
    AtSplits(content, i + 1, t, ")");
    AtHead(content, i, "(");
    AtHead(content, i + 1 + |t|, ")");
  }

  lemma {:induction false} ScanOfInline(content: string, i: nat, t: Inline, brackets: nat)
    requires WellFormed(t) && At(content, i, Render(t)) && (t.Bare? ==> NoParenthesis(content, i + |Render(t)|))
    ensures Scan(content, i, brackets) == Prepend(Targets(t), Scan(content, i + |Render(t)|, brackets))
    decreases t, 2
  {
    match t
    case Text(text) =>
      ScanOfText(content, i, text, brackets);
      PrependNothing(Scan(content, i + |Render(t)|, brackets));
    case Bare(inner) =>
      BareStands(content, i, RenderAll(inner));
      ScanOfBare(content, i, inner, brackets);
    case Link(inner, target) =>
      RenderedLinkStands(content, i, t);
      ScanOfWhole(content, i, inner, target, brackets);
  }

  lemma {:induction false} ScanOfWhole(content: string, i: nat, inner: seq<Inline>, target: seq<Piece>, brackets: nat)
    requires (forall u :: u in inner ==> WellFormed(u)) && Spaced(inner) && ProperPieces(target)
    requires LabelStands(content, i, RenderAll(inner)) && DestinationStands(content, i + 1 + |RenderAll(inner)|, RenderPieces(target))
    ensures Scan(content, i, brackets) ==
            Prepend(AllTargets(inner) + [RenderPieces(target)],
                    Scan(content, i + 4 + |RenderAll(inner)| + |RenderPieces(target)|, brackets))
    decreases inner, 2
  {
    var end, text := i + 1 + |RenderAll(inner)|, RenderPieces(target);
    ScanOfDestination(content, end, target, brackets + 1);
    ScanOfLabel(content, i, inner, brackets);
    Chain(AllTargets(inner), [text], Scan(content, i, brackets), Scan(content, end, brackets + 1), Scan(content, end + 3 + |text|, brackets));
  }

  lemma RenderedLinkStands(content: string, i: nat, t: Inline)
    requires t.Link? && At(content, i, Render(t))
    ensures LabelStands(content, i, RenderAll(t.inner))
    ensures DestinationStands(content, i + 1 + |RenderAll(t.inner)|, RenderPieces(t.target))
    ensures |Render(t)| == 4 + |RenderAll(t.inner)| + |RenderPieces(t.target)|
  {
    LinkStands(content, i, RenderAll(t.inner), RenderPieces(t.target));
  }

  lemma {:induction false} ScanOfBare(content: string, i: nat, inner: seq<Inline>, brackets: nat)
    requires (forall u :: u in inner ==> WellFormed(u)) && Spaced(inner) && LabelStands(content, i, RenderAll(inner))
    requires NoParenthesis(content, i + 2 + |RenderAll(inner)|)
    ensures Scan(content, i, brackets) == Prepend(AllTargets(inner), Scan(content, i + 2 + |RenderAll(inner)|, brackets))
    decreases inner, 2
  {
    ScanOfLabel(content, i, inner, brackets);
    ScanOfBareEnd(content, i + 1 + |RenderAll(inner)|, brackets + 1);
  }

  /** An opening bracket and the label after it, up to its closing bracket. */
  lemma {:induction false} ScanOfLabel(content: string, i: nat, inner: seq<Inline>, brackets: nat)
    requires (forall u :: u in inner ==> WellFormed(u)) && Spaced(inner) && LabelStands(content, i, RenderAll(inner))
    ensures Scan(content, i, brackets) ==
            Prepend(AllTargets(inner), Scan(content, i + 1 + |RenderAll(inner)|, brackets + 1))
    decreases inner, 1
  {
    ScanOfOpening(content, i, brackets);
    ScanOfInlines(content, i + 1, inner, brackets + 1);
  }

  lemma PrependTwice(a: seq<string>, b: seq<string>, later: Option<seq<string>>)
    ensures Prepend(a, Prepend(b, later)) == Prepend(a + b, later)
  {
    if later.Some? { assert a + (b + later.value) == a + b + later.value; }
  }

  lemma PrependNothing(later: Option<seq<string>>)
    ensures Prepend([], later) == later
  {
    if later.Some? { assert [] + later.value == later.value; }
  }

  /** Where the first of several parts stands, and the others. */
  lemma HeadStands(content: string, i: nat, ts: seq<Inline>)
    requires ts != [] && Spaced(ts) && At(content, i, RenderAll(ts)) && NoParenthesis(content, i + |RenderAll(ts)|)
    ensures |RenderAll(ts)| == |Render(ts[0])| + |RenderAll(ts[1..])|
    ensures At(content, i, Render(ts[0])) && At(content, i + |Render(ts[0])|, RenderAll(ts[1..]))
    ensures ts[0].Bare? ==> NoParenthesis(content, i + |Render(ts[0])|)
  {
    assert RenderAll(ts) == Render(ts[0]) + RenderAll(ts[1..]);
    PartsStand(content, i, Render(ts[0]), RenderAll(ts[1..]));
  }

  lemma PartsStand(content: string, i: nat, a: string, b: string)
    requires At(content, i, a + b) && NoParenthesis(content, i + |a + b|)
    ensures At(content, i, a) && At(content, i + |a|, b)
    ensures b == "" || b[0] != '(' ==> NoParenthesis(content, i + |a|)
  {
    AtSplits(content, i, a, b);
    if b == "" || b[0] != '(' { RenderedStart(content, i + |a|, b); }
  }

  lemma {:induction false} ScanOfInlines(content: string, i: nat, ts: seq<Inline>, brackets: nat)
    requires (forall t :: t in ts ==> WellFormed(t)) && Spaced(ts)
    requires At(content, i, RenderAll(ts)) && NoParenthesis(content, i + |RenderAll(ts)|)
    ensures Scan(content, i, brackets) == Prepend(AllTargets(ts), Scan(content, i + |RenderAll(ts)|, brackets))
    decreases ts, 0
  {
    if ts == [] {
      PrependNothing(Scan(content, i, brackets));
    } else {
      var next := i + |Render(ts[0])|;
      HeadStands(content, i, ts);
      ScanOfInline(content, i, ts[0], brackets);
      ScanOfInlines(content, next, ts[1..], brackets);
      Chain(Targets(ts[0]), AllTargets(ts[1..]), Scan(content, i, brackets), Scan(content, next, brackets),
            Scan(content, next + |RenderAll(ts[1..])|, brackets));
    }
  }

  lemma Chain(first: seq<string>, rest: seq<string>, a: Option<seq<string>>, b: Option<seq<string>>, c: Option<seq<string>>)
    requires a == Prepend(first, b) && b == Prepend(rest, c)
    ensures a == Prepend(first + rest, c)
  {
    PrependTwice(first, rest, c);
  }

  /** Scanning a rendered document returns its destinations, inner before outer and left to right. */
  lemma ScanReadsBackDestinations(ts: seq<Inline>)
    requires (forall t :: t in ts ==> WellFormed(t)) && Spaced(ts)
    ensures Scan(RenderAll(ts), 0, 0) == Some(AllTargets(ts))
  {
    var content := RenderAll(ts);
    assert content[0..|content|] == content;
    ScanOfInlines(content, 0, ts, 0);
    assert AllTargets(ts) + [] == AllTargets(ts);
  }

  // ----- what the matching parenthesis is

  /** The text from i up to the parenthesis before e is balanced, up to escapes. */
  ghost predicate Encloses(content: string, i: nat, e: nat) {
    i < e <= |content| && content[e - 1] == ')' && exists ps :: ProperPieces(ps) && RenderPieces(ps) == content[i..e - 1]
  }

  lemma RenderMore(p: Piece, ps: seq<Piece>)
    ensures RenderPieces([p] + ps) == RenderPiece(p) + RenderPieces(ps)
    ensures Proper(p) && ProperPieces(ps) ==> ProperPieces([p] + ps)
  {
    assert ([p] + ps)[1..] == ps;
  }

  lemma GroupText(content: string, i: nat, close: nat, k: nat)
    requires i < close < k <= |content| && content[i] == '(' && content[close] == ')'
    ensures content[i..k] == ("(" + content[i + 1..close] + ")") + content[close + 1..k]
  {
  }

  /** A search that succeeds passes balanced text, a parenthesis, and then searches one level further out. */
  lemma {:induction false} FirstClose(content: string, i: nat, depth: nat) returns (k: nat, ps: seq<Piece>)
    requires depth > 0 && Closing(content, i, depth).Some?
    ensures i <= k < |content| && content[k] == ')' && ProperPieces(ps) && RenderPieces(ps) == content[i..k]
    ensures Closing(content, i, depth) == if depth == 1 then Some(k + 1) else Closing(content, k + 1, depth - 1)
    decreases |content| - i
  {
    if content[i] == ')' {
      k, ps := i, [];
    } else if content[i] == '\\' {
      k, ps := FirstClose(content, i + 2, depth);
      RenderMore(Escaped(content[i + 1]), ps);
      assert content[i..k] == [content[i], content[i + 1]] + content[i + 2..k];
      ps := [Escaped(content[i + 1])] + ps;
    } else if content[i] == '(' {
      var inner, rest;
      k, inner := FirstClose(content, i + 1, depth + 1);
      var close := k;
      k, rest := FirstClose(content, close + 1, depth);
      RenderMore(Group(inner), rest);
      GroupText(content, i, close, k);
      ps := [Group(inner)] + rest;
    } else {
      k, ps := FirstClose(content, i + 1, depth);
      RenderMore(Plain(content[i]), ps);
      assert content[i..k] == [content[i]] + content[i + 1..k];
      ps := [Plain(content[i])] + ps;
    }
  }

  /** The search finds exactly the parenthesis that encloses balanced text, if there is one. */
  lemma ClosingExactly(content: string, i: nat, e: nat)
    ensures Closing(content, i, 1) == Some(e) <==> Encloses(content, i, e)
  {
    if Closing(content, i, 1).Some? {
      var k, ps := FirstClose(content, i, 1);
      assert Encloses(content, i, k + 1);
    }
    if Encloses(content, i, e) {
      var ps :| ProperPieces(ps) && RenderPieces(ps) == content[i..e - 1];
      assert At(content, i, RenderPieces(ps));
      ClosingOfPieces(content, i, ps, 1);
    }
  }

  // ----- the scanner as it runs

  method ClosingParenthesis(content: string, start: nat) returns (index: nat, depth: nat)
    ensures var end := Closing(content, start, 1);
            if end.Some? then depth == 0 && index == end.value else depth > 0
    ensures depth == 0 ==> Encloses(content, start, index)
    ensures depth > 0 ==> forall e: nat :: !Encloses(content, start, e)
  {
    forall e: nat ensures Closing(content, start, 1) == Some(e) <==> Encloses(content, start, e) { ClosingExactly(content, start, e); }
    index, depth := start, 1;
    while index < |content| && depth > 0
      invariant Closing(content, start, 1) == if depth == 0 then Some(index) else Closing(content, index, depth)
      decreases |content| - index
    {
      if content[index] == '\\' {
        index := index + 2;
        continue;
      }
      if content[index] == '(' {
        depth := depth + 1;
      } else if content[index] == ')' {
        depth := depth - 1;
      }
      index := index + 1;
    }
  }

  /** `None` is the error of an unclosed link. */
  method Links(content: string) returns (links: Option<seq<string>>)
    ensures links == Scan(content, 0, 0)
  {
    var found: seq<string> := [];
    var brackets: nat, index: nat := 0, 0;
    PrependNothing(Scan(content, 0, 0));
    while index < |content|
      invariant Scan(content, 0, 0) == Prepend(found, Scan(content, index, brackets))
      decreases |content| - index
    {
      if content[index] == '\\' {
        index := index + 2;
        continue;
      }
      if content[index] == '[' {
        brackets := brackets + 1;
      }
      if content[index] != ']' || brackets == 0 {
        index := index + 1;
        continue;
      }
      brackets := brackets - 1;
      index := index + 1;
      if index == |content| || content[index] != '(' {
        continue;
      }
      var start := index + 1;
      var end, depth := ClosingParenthesis(content, start);
      if depth > 0 {
        return None;
      }
      PrependTwice(found, [content[start..end - 1]], Scan(content, end, brackets));
      found := found + [content[start..end - 1]];
      index := end;
    }
    assert found + [] == found;
    return Some(found);
  }
}
