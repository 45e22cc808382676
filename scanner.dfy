/** The token scanner: a stateful position-to-(line, col) mapper and the
    first-match tokenizer loop over an ordered rule table. The regular
    expressions of the rule table are kept abstract: each rule is a matcher
    that, given the code and a position, reports the length of its match. */
module Scanner {
  import opened Wrappers

  /** A 1-based (line, col) pair; (-1, -1) when the position lies past the last line. */
  datatype Coor = Coor(line: int, col: int)

  const NoCoor: Coor := Coor(-1, -1)

  datatype Token = Token(kind: string, text: string, coor: Coor)

  /** One entry of the ordered rule table: a token kind and its matcher,
      which answers the length of the match anchored at the position, if any. */
  datatype TokenRule = TokenRule(kind: string, matcher: (string, nat) -> Option<nat>)

  /** What the rule table guarantees: every match is non-empty and lies inside the code. */
  ghost predicate MatchersWellBehaved(rules: seq<TokenRule>)
  {
    forall i: int, code: string, pos: nat, n: nat ::
      0 <= i < |rules| && rules[i].matcher(code, pos) == Some(n) ==> 0 < n && pos + n <= |code|
  }

  // ---------------------------------------------------------------------
  // Lines of the code

  /** Joins lines back together with a '\n' between consecutive lines. */
  function Join(lines: seq<string>): string
    requires |lines| >= 1
  {
    if |lines| == 1 then lines[0] else lines[0] + "\n" + Join(lines[1..])
  }

  /** `code.split('\n')`: the maximal newline-free pieces, in order. */
  function Split(code: string): (lines: seq<string>)
    ensures |lines| >= 1
    ensures forall i :: 0 <= i < |lines| ==> '\n' !in lines[i]
    ensures Join(lines) == code
  {
    if code == [] then [""]
    else
      var rest := Split(code[1..]);
      if code[0] == '\n' then
        assert code == "\n" + code[1..];
        [""] + rest
      else
        var lines := [[code[0]] + rest[0]] + rest[1..];
        assert lines[1..] == rest[1..];
        assert |rest| > 1 ==> Join(rest) == rest[0] + "\n" + Join(rest[1..]);
        assert code == [code[0]] + code[1..];
        lines
  }

  /** Position at which line k (0-based) starts: each earlier line plus its '\n'. */
  function LineStart(lines: seq<string>, k: nat): nat
    requires k <= |lines|
  {
    if k == 0 then 0 else LineStart(lines, k - 1) + |lines[k - 1]| + 1
  }

  /** The position one past the code's end (plus one) is where the lines stop. */
  lemma {:induction false} LineStartAtEnd(lines: seq<string>)
    requires |lines| >= 1
    ensures LineStart(lines, |lines|) == |Join(lines)| + 1
  {
    if |lines| == 1 {
      assert LineStart(lines, 1) == LineStart(lines, 0) + |lines[0]| + 1;
    } else {
      LineStartAtEnd(lines[1..]);
      LineStartShift(lines, |lines| - 1);
      assert |Join(lines)| == |lines[0]| + 1 + |Join(lines[1..])|;
    }
  }

  /** Dropping the first line shifts every later line start by that line's length plus one. */
  lemma {:induction false} LineStartShift(lines: seq<string>, k: nat)
    requires 1 <= |lines| && k <= |lines| - 1
    ensures LineStart(lines, k + 1) == |lines[0]| + 1 + LineStart(lines[1..], k)
  {
    if k > 0 {
      LineStartShift(lines, k - 1);
    }
  }

  /** Character j of line k of the joined text sits at LineStart(k) + j; the
      position just after the line holds its '\n'. */
  lemma {:induction false} JoinIndex(lines: seq<string>, k: nat, j: nat)
    requires |lines| >= 1 && k < |lines|
    requires j < |lines[k]| || (j == |lines[k]| && k + 1 < |lines|)
    ensures LineStart(lines, k) + j < |Join(lines)|
    ensures j < |lines[k]| ==> Join(lines)[LineStart(lines, k) + j] == lines[k][j]
    ensures j == |lines[k]| ==> Join(lines)[LineStart(lines, k) + j] == '\n'
  {
    if k == 0 {
      if |lines| > 1 {
        assert Join(lines) == lines[0] + "\n" + Join(lines[1..]);
      }
    } else {
      JoinIndex(lines[1..], k - 1, j);
      LineStartShift(lines, k - 1);
      assert Join(lines) == lines[0] + "\n" + Join(lines[1..]);
    }
  }

  // ---------------------------------------------------------------------
  // Coordinates

  /** The scan `get_coordinate` performs from line k, which starts at `start`. */
  function ScanFrom(lines: seq<string>, k: nat, start: nat, pos: nat): Coor
    decreases |lines| - k
  {
    if k >= |lines| then NoCoor
    else if start <= pos < start + |lines[k]| + 1 then Coor(k + 1, pos - start + 1)
    else ScanFrom(lines, k + 1, start + |lines[k]| + 1, pos)
  }

  /** The coordinate a fresh scan from the first line yields. */
  function Coordinate(lines: seq<string>, pos: nat): Coor
  {
    ScanFrom(lines, 0, 0, pos)
  }

  /** Resuming the scan at a cached line whose start is not after the position
      gives the same answer as scanning from the first line. */
  lemma {:induction false} ResumeScan(lines: seq<string>, k: nat, pos: nat)
    requires k <= |lines| && LineStart(lines, k) <= pos
    ensures ScanFrom(lines, k, LineStart(lines, k), pos) == Coordinate(lines, pos)
  {
    if k > 0 {
      assert LineStart(lines, k - 1) <= pos;
      ResumeScan(lines, k - 1, pos);
    }
  }

  /** What a coordinate means: line l (1-based) is the line whose span, its
      trailing '\n' included, holds the position, and the column counts from
      that line's start; positions from the end of the last line's span on
      have no coordinate. */
  lemma {:induction false} CoordinateMeaning(lines: seq<string>, pos: nat)
    ensures Coordinate(lines, pos) != NoCoor <==> pos < LineStart(lines, |lines|)
    ensures var c := Coordinate(lines, pos);
            c != NoCoor ==>
              && 1 <= c.line <= |lines|
              && LineStart(lines, c.line - 1) <= pos < LineStart(lines, c.line)
              && c.col == pos - LineStart(lines, c.line - 1) + 1
  {
    ScanMeaning(lines, 0, pos);
  }

  lemma {:induction false} ScanMeaning(lines: seq<string>, k: nat, pos: nat)
    requires k <= |lines| && LineStart(lines, k) <= pos
    ensures var c := ScanFrom(lines, k, LineStart(lines, k), pos);
            && (c != NoCoor <==> pos < LineStart(lines, |lines|))
            && (c != NoCoor ==>
                  && k + 1 <= c.line <= |lines|
                  && LineStart(lines, c.line - 1) <= pos < LineStart(lines, c.line)
                  && c.col == pos - LineStart(lines, c.line - 1) + 1)
    decreases |lines| - k
  {
    if k < |lines| && !(pos < LineStart(lines, k + 1)) {
      ScanMeaning(lines, k + 1, pos);
    } else if k < |lines| {
      LineStartMonotone(lines, k + 1, |lines|);
    }
  }

  lemma {:induction false} LineStartMonotone(lines: seq<string>, i: nat, j: nat)
    requires i <= j <= |lines|
    ensures LineStart(lines, i) <= LineStart(lines, j)
    decreases j - i
  {
    if i < j {
      LineStartMonotone(lines, i, j - 1);
    }
  }

  /** Every position of the code has a coordinate, and the character there is
      the one the coordinate names, a line's trailing '\n' belonging to that line. */
  lemma CoordinateOfCodePosition(code: string, pos: nat)
    requires pos < |code|
    ensures var lines := Split(code);
            var c := Coordinate(lines, pos);
            && 1 <= c.line <= |lines|
            && 1 <= c.col <= |lines[c.line - 1]| + 1
            && (c.col <= |lines[c.line - 1]| ==> code[pos] == lines[c.line - 1][c.col - 1])
            && (c.col == |lines[c.line - 1]| + 1 ==> code[pos] == '\n')
  {
    var lines := Split(code);
    LineStartAtEnd(lines);
    CoordinateMeaning(lines, pos);
    var c := Coordinate(lines, pos);
    var k := c.line - 1;
    var j := c.col - 1;
    JoinIndex(lines, k, j);
  }

  /** The state `coordinate_generator` closes over: the lines, the line the
      last answer came from and its start, and the last position asked about. */
  class CoordinateGenerator {
    const lines: seq<string>
    var lineNum: nat
    var lineStart: nat
    var lastPos: nat

    ghost predicate Valid()
      reads this
    {
      && lineNum <= |lines|
      && lineStart == LineStart(lines, lineNum)
      && lineStart <= lastPos
    }

    constructor (code: string)
      ensures Valid()
      ensures lines == Split(code) && lineNum == 0 && lineStart == 0 && lastPos == 0
    {
      lines := Split(code);
      lineNum, lineStart, lastPos := 0, 0, 0;
    }

    /** `get_coordinate`: positions must not decrease from call to call; the
        cached line lets the scan resume where the previous one stopped, and
        the answer is that of a fresh scan from the first line. */
    method GetCoordinate(pos: nat) returns (c: Coor)
      requires Valid() && pos >= lastPos
      modifies this
      ensures Valid() && lastPos == pos
      ensures c == Coordinate(lines, pos)
    {
      lastPos := pos;
      ResumeScan(lines, lineNum, pos);
      while lineNum < |lines|
        invariant lastPos == pos
        invariant lineNum <= |lines|
        invariant lineStart == LineStart(lines, lineNum) <= pos
        invariant ScanFrom(lines, lineNum, lineStart, pos) == Coordinate(lines, pos)
        decreases |lines| - lineNum
      {
        if lineStart <= pos && pos < lineStart + |lines[lineNum]| + 1 {
          return Coor(lineNum + 1, pos - lineStart + 1);
        }
        lineStart := lineStart + |lines[lineNum]| + 1;
        lineNum := lineNum + 1;
      }
      c := NoCoor;
    }
  }

  // ---------------------------------------------------------------------
  // Tokenizer

  /** The concatenated texts of the tokens. */
  function Texts(tokens: seq<Token>): string
  {
    if tokens == [] then [] else Texts(tokens[..|tokens| - 1]) + tokens[|tokens| - 1].text
  }

  /** The first rule of the table, from `r` on, that matches at `pos`, with
      the length of its match. */
  function FirstRuleFrom(rules: seq<TokenRule>, code: string, pos: nat, r: nat): (m: Option<(nat, nat)>)
    ensures m.Some? ==> r <= m.value.0 < |rules|
    decreases |rules| - r
  {
    if r >= |rules| then None
    else match rules[r].matcher(code, pos)
      case Some(n) => Some((r, n))
      case None => FirstRuleFrom(rules, code, pos, r + 1)
  }

  function FirstRule(rules: seq<TokenRule>, code: string, pos: nat): (m: Option<(nat, nat)>)
  {
    FirstRuleFrom(rules, code, pos, 0)
  }

  /** `FirstRuleFrom` answers the first matching rule from `r` on, and nothing
      exactly when none of those rules matches. */
  lemma {:induction false} FirstRuleFromMeaning(rules: seq<TokenRule>, code: string, pos: nat, r: nat)
    ensures var m := FirstRuleFrom(rules, code, pos, r);
            && (m.Some? ==>
                  && rules[m.value.0].matcher(code, pos) == Some(m.value.1)
                  && forall j :: r <= j < m.value.0 ==> rules[j].matcher(code, pos) == None)
            && (m.None? <==> forall j :: r <= j < |rules| ==> rules[j].matcher(code, pos) == None)
    decreases |rules| - r
  {
    if r < |rules| && rules[r].matcher(code, pos).None? {
      FirstRuleFromMeaning(rules, code, pos, r + 1);
    }
  }

  /** The token `get_tokens` yields at `pos`: the kind of the first matching
      rule, the text it matched, and the coordinate of `pos`. */
  ghost function TokenAt(rules: seq<TokenRule>, code: string, pos: nat): Option<Token>
  {
    match FirstRule(rules, code, pos)
    case None => None
    case Some((r, n)) =>
      if pos + n <= |code| then Some(Token(rules[r].kind, code[pos..pos + n], Coordinate(Split(code), pos)))
      else None
  }

  /** Every token is the one `get_tokens` yields where the texts of the
      tokens before it end. */
  ghost predicate Scanned(rules: seq<TokenRule>, code: string, tokens: seq<Token>)
    decreases |tokens|
  {
    tokens == [] ||
      var init := tokens[..|tokens| - 1];
      Scanned(rules, code, init) && TokenAt(rules, code, |Texts(init)|) == Some(tokens[|tokens| - 1])
  }

  /** `Scanned` read token by token: the i-th token is the one yielded at the
      end of the texts of the first i tokens. */
  lemma {:induction false} ScannedMeaning(rules: seq<TokenRule>, code: string, tokens: seq<Token>, i: nat)
    requires Scanned(rules, code, tokens) && i < |tokens|
    ensures TokenAt(rules, code, |Texts(tokens[..i])|) == Some(tokens[i])
    decreases |tokens|
  {
    var init := tokens[..|tokens| - 1];
    if i < |init| {
      ScannedMeaning(rules, code, init, i);
      assert init[..i] == tokens[..i];
    }
  }

  /** The token yielded where rule r is the first to match, with length n. */
  lemma FoundToken(rules: seq<TokenRule>, code: string, pos: nat, r: nat, n: nat)
    requires FirstRule(rules, code, pos) == Some((r, n)) && pos + n <= |code|
    ensures TokenAt(rules, code, pos) == Some(Token(rules[r].kind, code[pos..pos + n], Coordinate(Split(code), pos)))
  {
  }

  /** Appending the token found at the end of the consumed prefix keeps the
      prefix covered and every token where it was. */
  lemma AppendToken(rules: seq<TokenRule>, code: string, tokens: seq<Token>, t: Token)
    requires Texts(tokens) <= code
    requires Scanned(rules, code, tokens)
    requires TokenAt(rules, code, |Texts(tokens)|) == Some(t)
    ensures Texts(tokens + [t]) == code[..|Texts(tokens)| + |t.text|]
    ensures Scanned(rules, code, tokens + [t])
  {
    var ts := tokens + [t];
    assert ts[..|ts| - 1] == tokens;
    var pos := |Texts(tokens)|;
    assert t.text == code[pos..pos + |t.text|];
    assert code[..pos + |t.text|] == code[..pos] + code[pos..pos + |t.text|];
  }

  /** The inner loop of `get_tokens`: tries the rules in table order and stops
      at the first that matches at `pos`, however long a later rule's match. */
  method MatchFirst(rules: seq<TokenRule>, code: string, pos: nat) returns (m: Option<(nat, nat)>)
    requires MatchersWellBehaved(rules)
    ensures m == FirstRule(rules, code, pos)
    ensures m.Some? ==> 0 < m.value.1 && pos + m.value.1 <= |code|
  {
    var r := 0;
    while r < |rules|
      invariant r <= |rules|
      invariant FirstRuleFrom(rules, code, pos, r) == FirstRule(rules, code, pos)
    {
      var found := rules[r].matcher(code, pos);
      if found.Some? {
        return Some((r, found.value));
      }
      r := r + 1;
    }
    m := None;
  }

  /** `get_tokens`: the tokens yielded, in order, and the coordinate of the
      `InvalidTokenException` if one was raised after them. The texts cover the
      consumed prefix exactly; each token is the first matching rule's at its
      own start; the scan stops at the end of the code or where no rule matches. */
  method GetTokens(code: string, rules: seq<TokenRule>) returns (tokens: seq<Token>, failure: Option<Coor>)
    requires MatchersWellBehaved(rules)
    ensures Texts(tokens) <= code
    ensures Scanned(rules, code, tokens)
    ensures code == [] ==> tokens == []
    ensures failure == None <==> Texts(tokens) == code
    ensures failure != None ==>
              && failure.value == Coordinate(Split(code), |Texts(tokens)|)
              && FirstRule(rules, code, |Texts(tokens)|) == None
  {
    var gen := new CoordinateGenerator(code);
    var pos := 0;
    tokens := [];
    while pos < |code|
      invariant pos <= |code| && pos == |Texts(tokens)| && Texts(tokens) == code[..pos] && |tokens| <= pos
      invariant Scanned(rules, code, tokens)
      invariant gen.Valid() && gen.lines == Split(code) && gen.lastPos <= pos
      decreases |code| - pos
    {
      var coor := gen.GetCoordinate(pos);
      var m := MatchFirst(rules, code, pos);
      if m.None? {
        return tokens, Some(coor);
      }
      var (r, n) := m.value;
      var t := Token(rules[r].kind, code[pos..pos + n], coor);
      FoundToken(rules, code, pos, r, n);
      AppendToken(rules, code, tokens, t);
      tokens := tokens + [t];
      pos := pos + n;
    }
    failure := None;
  }
}
