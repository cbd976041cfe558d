/** Line-level text helpers shared by the readers of lib/rw-general.cpp and
    lib/rw-ties.cpp: the first `=` of a key=value line, the quote stripping
    applied to values, whitespace tokens (`iss >> token`) and comma fields
    (`getline(iss, token, ',')`). */
module TextLines {
  import opened Wrappers
  import opened Decimal

  // ---------------------------------------------------------------------
  // key=value lines

  /** Position of the first occurrence of `c` (`std::string::find`), or None (`npos`). */
  function Find(s: string, c: char): (r: Option<nat>)
    ensures r.Some? ==> r.value < |s| && s[r.value] == c && forall j :: 0 <= j < r.value ==> s[j] != c
    ensures r.None? ==> forall j :: 0 <= j < |s| ==> s[j] != c
  {
    if s == [] then None
    else if s[0] == c then Some(0)
    else match Find(s[1..], c)
      case None => None
      case Some(k) => Some(k + 1)
  }

  /** Strips at most one `"` at the front and then at most one at the back.
      The source reads `front()`/`back()` without checking for an empty
      string; an empty value is left empty here. */
  function Unquote(value: string): string
  {
    var v := if value != [] && value[0] == '"' then value[1..] else value;
    if v != [] && v[|v| - 1] == '"' then v[..|v| - 1] else v
  }

  /** A value between double quotes, as the tie writer prints it. */
  function Quote(value: string): string
  {
    ['"'] + value + ['"']
  }

  /** A line split at its first `=`: the key before it and the unquoted value after it. */
  function SplitKeyValue(line: string): Option<(string, string)>
  {
    match Find(line, '=')
      case None => None
      case Some(p) => Some((line[..p], Unquote(line[p + 1..])))
  }

  /** Quoting then unquoting gives the value back, whatever it holds. */
  lemma UnquoteQuote(value: string)
    ensures Unquote(Quote(value)) == value
  {
    var q := Quote(value);
    assert q[0] == '"' && q[1..] == value + ['"'];
    var v := value + ['"'];
    assert v[|v| - 1] == '"' && v[..|v| - 1] == value;
  }

  /** A value with no quote at either end is kept as it is. */
  lemma UnquotePlain(value: string)
    requires value == [] || (value[0] != '"' && value[|value| - 1] != '"')
    ensures Unquote(value) == value
  {
  }

  /** Only one quote is stripped from each end: inner quotes survive. */
  lemma UnquoteStripsOnce(value: string)
    ensures Unquote(Quote(Quote(value))) == Quote(value)
  {
    UnquoteQuote(Quote(value));
  }

  /** The key is everything before the first `=`, the value everything after it, unquoted. */
  lemma SplitKeyValueParts(key: string, value: string)
    requires '=' !in key
    ensures SplitKeyValue(key + "=" + Quote(value)) == Some((key, value))
    ensures SplitKeyValue(key + "=" + value) == Some((key, Unquote(value)))
  {
    FindAfter(key, "=" + Quote(value), '=');
    FindAfter(key, "=" + value, '=');
    var l1 := key + "=" + Quote(value);
    assert l1 == key + ("=" + Quote(value));
    assert l1[..|key|] == key && l1[|key| + 1..] == Quote(value);
    var l2 := key + "=" + value;
    assert l2 == key + ("=" + value);
    assert l2[..|key|] == key && l2[|key| + 1..] == value;
    UnquoteQuote(value);
  }

  /** The first `c` of `key + rest` is the first `c` of `rest` when `key` has none. */
  lemma {:induction false} FindAfter(key: string, rest: string, c: char)
    requires c !in key && rest != [] && rest[0] == c
    ensures Find(key + rest, c) == Some(|key|)
    decreases |key|
  {
    if key != [] {
      assert (key + rest)[1..] == key[1..] + rest;
      FindAfter(key[1..], rest, c);
    }
  }

  // ---------------------------------------------------------------------
  // Whitespace tokens: what repeated `iss >> token` extracts

  /** Length of the leading run of non-space characters. */
  function WordLength(s: string): (n: nat)
    ensures n <= |s| && (n < |s| ==> IsSpace(s[n]))
    ensures forall i :: 0 <= i < n ==> !IsSpace(s[i])
  {
    if s == [] || IsSpace(s[0]) then 0 else 1 + WordLength(s[1..])
  }

  /** The maximal runs of non-space characters, in order. */
  function Tokens(s: string): (r: seq<string>)
    ensures forall k :: 0 <= k < |r| ==> r[k] != [] && NoSpace(r[k])
    decreases |s|
  {
    if s == [] then []
    else if IsSpace(s[0]) then Tokens(s[1..])
    else
      var n := WordLength(s);
      [s[..n]] + Tokens(s[n..])
  }

  predicate NoSpace(w: string)
  {
    forall i :: 0 <= i < |w| ==> !IsSpace(w[i])
  }

  lemma {:induction false} WordLengthGlue(w: string, rest: string)
    requires NoSpace(w) && (rest == [] || IsSpace(rest[0]))
    ensures WordLength(w + rest) == |w|
    decreases |w|
  {
    if w != [] {
      assert (w + rest)[1..] == w[1..] + rest;
      WordLengthGlue(w[1..], rest);
    }
  }

  /** A word followed by a space (or by nothing) is one token. */
  lemma WordGlue(w: string, rest: string)
    requires w != [] && NoSpace(w) && (rest == [] || IsSpace(rest[0]))
    ensures Tokens(w + rest) == [w] + Tokens(rest)
  {
    WordLengthGlue(w, rest);
    var s := w + rest;
    assert s[0] == w[0];
    assert s[..|w|] == w && s[|w|..] == rest;
  }

  /** Words joined by single spaces. */
  function JoinWords(ws: seq<string>): string
  {
    if ws == [] then [] else if |ws| == 1 then ws[0] else ws[0] + " " + JoinWords(ws[1..])
  }

  /** Tokenising words joined by spaces gives the words back. */
  lemma {:induction false} TokensOfJoin(ws: seq<string>)
    requires forall k :: 0 <= k < |ws| ==> ws[k] != [] && NoSpace(ws[k])
    ensures Tokens(JoinWords(ws)) == ws
    decreases |ws|
  {
    if |ws| == 1 {
      WordGlue(ws[0], []);
      assert ws[0] + [] == ws[0];
    } else if |ws| > 1 {
      var rest := JoinWords(ws[1..]);
      assert JoinWords(ws) == ws[0] + (" " + rest);
      WordGlue(ws[0], " " + rest);
      assert (" " + rest)[1..] == rest;
      TokensOfJoin(ws[1..]);
    }
  }

  /** `while (iss >> token) tokens.push_back(token)`, character by character. */
  method SplitTokens(line: string) returns (tokens: seq<string>)
    ensures tokens == Tokens(line)
  {
    tokens := [];
    var cur := "";
    var i := 0;
    assert cur + line[i..] == line;
    while i < |line|
      invariant 0 <= i <= |line| && NoSpace(cur)
      invariant Tokens(line) == tokens + Tokens(cur + line[i..])
    {
      ghost var rest := line[i + 1..];
      TokenStep(cur, line[i..]);
      assert line[i..][1..] == rest;
      if IsSpace(line[i]) {
        if cur != "" {
          assert Tokens(line) == (tokens + [cur]) + Tokens("" + rest);
          tokens := tokens + [cur];
          cur := "";
        }
      } else {
        cur := cur + [line[i]];
      }
      i := i + 1;
    }
    assert cur + line[i..] == cur;
    if cur != "" {
      WordGlue(cur, []);
      assert cur + [] == cur;
      tokens := tokens + [cur];
    }
  }

  /** One character more: a space ends the current word, anything else extends it. */
  lemma TokenStep(cur: string, rest: string)
    requires NoSpace(cur) && rest != []
    ensures IsSpace(rest[0]) && cur != [] ==> Tokens(cur + rest) == [cur] + Tokens([] + rest[1..])
    ensures IsSpace(rest[0]) && cur == [] ==> Tokens(cur + rest) == Tokens([] + rest[1..])
    ensures !IsSpace(rest[0]) ==> Tokens(cur + rest) == Tokens((cur + [rest[0]]) + rest[1..]) && NoSpace(cur + [rest[0]])
  {
    assert [] + rest[1..] == rest[1..];
    if IsSpace(rest[0]) {
      assert Tokens(rest) == Tokens(rest[1..]);
      if cur != [] {
        WordGlue(cur, rest);
      } else {
        assert cur + rest == rest;
      }
    } else {
      var next := cur + [rest[0]];
      assert next + rest[1..] == cur + rest;
      assert forall k :: 0 <= k < |next| ==> next[k] == if k < |cur| then cur[k] else rest[0];
    }
  }

  // ---------------------------------------------------------------------
  // Comma fields: what repeated `getline(iss, token, ',')` extracts

  /** The comma-separated fields: a trailing comma adds no empty field,
      two adjacent commas give an empty one. */
  function Fields(s: string): (r: seq<string>)
    decreases |s|
  {
    if s == [] then []
    else match Find(s, ',')
      case None => [s]
      case Some(k) => [s[..k]] + Fields(s[k + 1..])
  }

  lemma {:induction false} NoComma(w: string)
    requires ',' !in w
    ensures Find(w, ',') == None
    decreases |w|
  {
    if w != [] {
      assert w[0] != ',';
      assert forall j :: 0 <= j < |w[1..]| ==> w[1..][j] == w[j + 1];
      NoComma(w[1..]);
    }
  }

  /** A field followed by a comma is one field, even when empty. */
  lemma FieldGlue(w: string, rest: string)
    requires ',' !in w && rest != [] && rest[0] == ','
    ensures Fields(w + rest) == [w] + Fields(rest[1..])
  {
    FindAfter(w, rest, ',');
    var s := w + rest;
    assert s[..|w|] == w && s[|w| + 1..] == rest[1..];
  }

  /** `std::getline(iss, token, ',')` in a loop, character by character. */
  method SplitFields(line: string) returns (tokens: seq<string>)
    ensures tokens == Fields(line)
  {
    tokens := [];
    var cur := "";
    var i := 0;
    assert cur + line[i..] == line;
    while i < |line|
      invariant 0 <= i <= |line| && ',' !in cur
      invariant Fields(line) == tokens + Fields(cur + line[i..])
    {
      FieldAdvance(line, i, tokens, cur);
      if line[i] == ',' {
        tokens := tokens + [cur];
        cur := "";
      } else {
        cur := cur + [line[i]];
      }
      i := i + 1;
    }
    assert cur + line[i..] == cur;
    if cur != "" {
      NoComma(cur);
      tokens := tokens + [cur];
    }
  }

  /** The loop invariant of `SplitFields` for the next character. */
  lemma FieldAdvance(line: string, i: nat, tokens: seq<string>, cur: string)
    requires i < |line| && ',' !in cur
    requires Fields(line) == tokens + Fields(cur + line[i..])
    ensures line[i] == ',' ==> Fields(line) == (tokens + [cur]) + Fields("" + line[i + 1..])
    ensures line[i] != ',' ==> ',' !in cur + [line[i]] && Fields(line) == tokens + Fields((cur + [line[i]]) + line[i + 1..])
  {
    FieldStep(cur, line[i..]);
    assert line[i..][1..] == line[i + 1..];
  }

  /** One character more: a comma ends the current field, anything else extends it. */
  lemma FieldStep(cur: string, rest: string)
    requires ',' !in cur && rest != []
    ensures rest[0] == ',' ==> Fields(cur + rest) == [cur] + Fields("" + rest[1..])
    ensures rest[0] != ',' ==> Fields(cur + rest) == Fields((cur + [rest[0]]) + rest[1..]) && ',' !in cur + [rest[0]]
  {
    assert "" + rest[1..] == rest[1..];
    if rest[0] == ',' {
      FieldGlue(cur, rest);
    } else {
      assert (cur + [rest[0]]) + rest[1..] == cur + rest;
    }
  }

  /** Fields joined by commas. */
  function JoinFields(fs: seq<string>): string
  {
    if fs == [] then [] else if |fs| == 1 then fs[0] else fs[0] + "," + JoinFields(fs[1..])
  }

  /** Splitting fields joined by commas gives them back, as long as the last one is not empty. */
  lemma {:induction false} FieldsOfJoin(fs: seq<string>)
    requires forall k :: 0 <= k < |fs| ==> ',' !in fs[k]
    requires fs != [] ==> fs[|fs| - 1] != []
    ensures Fields(JoinFields(fs)) == fs
    decreases |fs|
  {
    if |fs| == 1 {
      NoComma(fs[0]);
    } else if |fs| > 1 {
      var rest := JoinFields(fs[1..]);
      assert JoinFields(fs) == fs[0] + ("," + rest);
      FieldGlue(fs[0], "," + rest);
      assert ("," + rest)[1..] == rest;
      FieldsOfJoin(fs[1..]);
    }
  }
}
