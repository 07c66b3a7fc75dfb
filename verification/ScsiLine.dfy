/** The name/value parser of `get_scsi_info` (`ndmp_config.c`) for one line of /proc/scsi/scsi: a `strtok_r` cursor,
    names that end at a token with a colon, values that run to the next such token, or one word after `Type:`. */
module ScsiLine {
  import opened Common
  import opened TextTokens

  predicate ColonEnded(t: string) { t != [] && t[|t| - 1] == ':' }

  // Tokens as the buffers join them.
  function Join(ts: seq<string>): string {
    if ts == [] then "" else if |ts| == 1 then ts[0] else Join(ts[..|ts| - 1]) + " " + ts[|ts| - 1]
  }

  predicate IsType(name: seq<string>) { Join(name) == "Type:" }

  // --------------------------------------------------------------------------------------------- the grammar

  datatype Field = Field(name: seq<string>, value: seq<string>)

  predicate NoColon(ts: seq<string>) { forall i :: 0 <= i < |ts| ==> !ColonEnded(ts[i]) }

  predicate NameOk(name: seq<string>) {
    name != [] && ColonEnded(name[|name| - 1]) && NoColon(name[..|name| - 1])
  }

  // A name ends at its only colon; a value is not empty, and is one word after `Type:`, free of colon tokens elsewhere.
  predicate FieldOk(f: Field) {
    NameOk(f.name) && f.value != [] && if IsType(f.name) then |f.value| == 1 else NoColon(f.value)
  }

  // Only after `Type:` can a name have several tokens.
  predicate LineOk(fs: seq<Field>) {
    && fs != [] && FieldOk(fs[0])
    && (|fs| > 1 ==> (IsType(fs[0].name) || |fs[1].name| == 1) && LineOk(fs[1..]))
  }

  function Flatten(fs: seq<Field>): seq<string> {
    if fs == [] then [] else fs[0].name + fs[0].value + Flatten(fs[1..])
  }

  // ------------------------------------------------------------------------------------- what the parser computes

  // How many tokens come before the first that ends in a colon.
  function Before(ts: seq<string>): (n: nat)
    ensures n <= |ts|
  {
    if ts == [] || ColonEnded(ts[0]) then 0 else 1 + Before(ts[1..])
  }

  // None stands for a line on which the source reads through a null pointer or before its value buffer.
  function ParseField(ts: seq<string>): (r: Option<Field>)
    ensures r.Some? ==> 0 < |r.value.name| + |r.value.value| <= |ts|
  {
    var n := Before(ts);
    if n == |ts| then None else
    var name, rest := ts[..n + 1], ts[n + 1..];
    var v := if IsType(name) then (if rest == [] then 0 else 1) else Before(rest);
    if v == 0 then None else Some(Field(name, rest[..v]))
  }

  function Parse(ts: seq<string>): Option<seq<Field>>
    decreases |ts|
  {
    match ParseField(ts)
    case None => None
    case Some(f) =>
      var rest := ts[|f.name| + |f.value|..];
      if rest == [] then Some([f]) else Prepend(f, Parse(rest))
  }

  function Prepend(f: Field, fs: Option<seq<Field>>): Option<seq<Field>> {
    if fs.None? then None else Some([f] + fs.value)
  }

  // ------------------------------------------------------------- the parser accepts exactly the grammar's lines

  lemma {:induction false} BeforeStops(ts: seq<string>)
    ensures NoColon(ts[..Before(ts)]) && (Before(ts) < |ts| ==> ColonEnded(ts[Before(ts)]))
  {
    if ts != [] && !ColonEnded(ts[0]) {
      BeforeStops(ts[1..]);
      assert ts[..Before(ts)] == [ts[0]] + ts[1..][..Before(ts[1..])];
    }
  }

  lemma BeforeIs(ts: seq<string>, n: nat)
    requires n <= |ts| && NoColon(ts[..n]) && (n < |ts| ==> ColonEnded(ts[n]))
    ensures Before(ts) == n
  {
    BeforeStops(ts);
    var m := Before(ts);
    assert forall i :: 0 <= i < n ==> ts[..n][i] == ts[i];
    assert forall i :: 0 <= i < m ==> ts[..m][i] == ts[i];
  }

  // A parsed field is in the grammar, starts the line, and ends where it must.
  lemma FieldSound(ts: seq<string>)
    requires ParseField(ts).Some?
    ensures var f := ParseField(ts).value; var k := |f.name| + |f.value|;
            && FieldOk(f) && ts == f.name + f.value + ts[k..]
            && (k < |ts| ==> IsType(f.name) || ColonEnded(ts[k]))
  {
    var f, n := ParseField(ts).value, Before(ts);
    var rest := ts[n + 1..];
    BeforeStops(ts);
    BeforeStops(rest);
    assert f.name[..n] == ts[..n];
    assert f.name == ts[..n + 1] && f.value == rest[..|f.value|];
    assert f.name + f.value == ts[..|f.name| + |f.value|];
  }

  lemma Split(a: seq<string>, b: seq<string>, c: seq<string>)
    ensures a + b + c == a + (b + c) && (a + b + c)[|a| + |b|..] == c
    ensures (a + (b + c))[..|a|] == a && (a + (b + c))[|a|..] == b + c && (b + c)[..|b|] == b
  {
  }

  lemma FindsName(name: seq<string>, tail: seq<string>)
    requires NameOk(name)
    ensures Before(name + tail) == |name| - 1
  {
    var n := |name| - 1;
    assert (name + tail)[..n] == name[..n] && (name + tail)[n] == name[n];
    BeforeIs(name + tail, n);
  }

  lemma FindsValue(value: seq<string>, rest: seq<string>)
    requires NoColon(value) && (rest == [] || ColonEnded(rest[0]))
    ensures Before(value + rest) == |value|
  {
    assert (value + rest)[..|value|] == value;
    BeforeIs(value + rest, |value|);
  }

  // A field followed by the end or, except after `Type:`, by a colon token is parsed as that field.
  lemma ParsesField(f: Field, rest: seq<string>)
    requires FieldOk(f) && (rest == [] || IsType(f.name) || ColonEnded(rest[0]))
    ensures ParseField(f.name + f.value + rest) == Some(f)
  {
    Split(f.name, f.value, rest);
    FindsName(f.name, f.value + rest);
    if !IsType(f.name) { FindsValue(f.value, rest); }
  }

  // Sound: whatever is parsed is in the grammar and spells the line, no token lost or repeated.
  lemma {:induction false} ParseSound(ts: seq<string>)
    ensures Parse(ts).Some? ==> LineOk(Parse(ts).value) && Flatten(Parse(ts).value) == ts
    decreases |ts|
  {
    if Parse(ts).Some? {
      var f := ParseField(ts).value;
      var k := |f.name| + |f.value|;
      var rest := ts[k..];
      FieldSound(ts);
      if rest == [] {
        assert Flatten([f]) == f.name + f.value + Flatten([]);
      } else {
        ParseSound(rest);
        var fs := Parse(rest).value;
        assert ([f] + fs)[1..] == fs;
        assert rest[0] == ts[k] && rest[0] == fs[0].name[0];
        if !IsType(f.name) { ColonFirstIsAll(fs[0].name); }
      }
    }
  }

  lemma ColonFirstIsAll(name: seq<string>)
    requires NameOk(name) && ColonEnded(name[0])
    ensures |name| == 1
  {
    var front := name[..|name| - 1];
    assert name == front + [name[|name| - 1]];
  }

  // Complete: every line of the grammar is parsed into its own fields.
  lemma {:induction false} ParseComplete(fs: seq<Field>)
    requires LineOk(fs)
    ensures Parse(Flatten(fs)) == Some(fs)
  {
    var f, rest := fs[0], Flatten(fs[1..]);
    if |fs| > 1 {
      ParseComplete(fs[1..]);
      assert rest[0] == fs[1].name[0];
      assert fs == [f] + fs[1..];
    } else {
      assert fs == [f];
    }
    ParsesField(f, rest);
    Split(f.name, f.value, rest);
    ParseCons(f.name + f.value + rest, f, rest);
  }

  lemma ParseCons(ts: seq<string>, f: Field, rest: seq<string>)
    requires ParseField(ts) == Some(f) && rest == ts[|f.name| + |f.value|..]
    ensures Parse(ts) == if rest == [] then Some([f]) else Prepend(f, Parse(rest))
  {
  }

  // A line parses into fs exactly when fs is a line of the grammar that spells it; so the grammar is unambiguous.
  lemma ParseIff(ts: seq<string>, fs: seq<Field>)
    ensures Parse(ts) == Some(fs) <==> LineOk(fs) && Flatten(fs) == ts
  {
    ParseSound(ts);
    if LineOk(fs) && Flatten(fs) == ts { ParseComplete(fs); }
  }

  // ---------------------------------------------------------------------------------------------- the parser

  predicate Filled(ts: seq<string>) { forall i :: 0 <= i < |ts| ==> ts[i] != "" }

  // The cursor of strtok_r on one line.
  class Strtok {
    const tokens: seq<string>
    var pos: nat

    ghost predicate Valid()
      reads this
    {
      pos <= |tokens| && Filled(tokens)
    }

    // Whether t is what the last call of Next gave.
    ghost predicate Gave(t: Option<string>)
      reads this
    {
      if t.Some? then 0 < pos <= |tokens| && t.value == tokens[pos - 1] else pos == |tokens|
    }

    // Where the token t stands, or the end.
    ghost function At(t: Option<string>): nat
      requires Gave(t)
      reads this
    {
      if t.Some? then pos - 1 else pos
    }

    constructor (line: string)
      ensures Valid() && tokens == Tokens(line, Blank) && pos == 0
    {
      TokensAreWords(line, Blank);
      tokens := Tokens(line, Blank);
      pos := 0;
    }

    method Next() returns (t: Option<string>)
      requires Valid()
      modifies this
      ensures Valid() && Gave(t) && At(t) == old(pos)
      ensures t == if old(pos) < |tokens| then Some(tokens[old(pos)]) else None
    {
      if pos < |tokens| {
        t := Some(tokens[pos]);
        pos := pos + 1;
      } else {
        t := None;
      }
    }
  }

  // How both buffers grow: an empty one is replaced, another gets a blank and the token.
  function Append(buffer: string, t: string): string {
    if buffer == "" then t else buffer + " " + t
  }

  lemma {:induction false} JoinFilled(ts: seq<string>)
    requires Filled(ts)
    ensures Join(ts) == "" <==> ts == []
  {
    if |ts| > 1 { JoinFilled(ts[..|ts| - 1]); }
  }

  lemma JoinNext(ts: seq<string>, i: nat, j: nat)
    requires Filled(ts) && i <= j < |ts|
    ensures Join(ts[i..j + 1]) == Append(Join(ts[i..j]), ts[j])
  {
    var all, front := ts[i..j + 1], ts[i..j];
    JoinFilled(front);
    assert |all| == j - i + 1 && all[..|all| - 1] == front && all[|all| - 1] == ts[j];
    if j == i { assert front == [] && |all| == 1; }
  }

  // From i on, the first colon token is where Before says.
  lemma FirstColon(ts: seq<string>, i: nat, j: nat)
    requires i <= j < |ts| && j <= i + Before(ts[i..])
    ensures ColonEnded(ts[j]) <==> j == i + Before(ts[i..])
  {
    var rest := ts[i..];
    BeforeStops(rest);
    assert j < i + Before(rest) ==> rest[..Before(rest)][j - i] == ts[j];
  }

  // get_name: joins the tokens from curr, already taken, to the first that ends in a colon.
  method GetName(s: Strtok, curr: string) returns (name: string)
    requires s.Valid() && s.Gave(Some(curr)) && s.pos + Before(s.tokens[s.pos - 1..]) <= |s.tokens|
    modifies s
    ensures s.Valid() && s.pos == old(s.pos) + Before(s.tokens[old(s.pos) - 1..])
    ensures name == Join(s.tokens[old(s.pos) - 1..s.pos])
  {
    ghost var from, at := s.pos - 1, s.pos - 1;
    ghost var n := Before(s.tokens[from..]);
    var c := curr;
    name := "";
    while !ColonEnded(c)
      invariant s.Valid() && s.Gave(Some(c)) && from <= at <= from + n && s.pos == at + 1
      invariant name == Join(s.tokens[from..at])
      decreases |s.tokens| - at
    {
      FirstColon(s.tokens, from, at);
      JoinNext(s.tokens, from, at);
      name := Append(name, c);
      var next := s.Next();
      c := next.value;
      at := at + 1;
    }
    FirstColon(s.tokens, from, at);
    JoinNext(s.tokens, from, at);
    name := Append(name, c);
  }

  // get_value: one word, or all tokens up to the next that ends in a colon, which is returned.
  method GetValue(s: Strtok, oneWord: bool) returns (value: string, next: Option<string>)
    requires s.Valid() && (oneWord ==> s.pos < |s.tokens|)
    modifies s
    ensures s.Valid() && s.Gave(next)
    ensures s.At(next) == old(s.pos) + if oneWord then 1 else Before(s.tokens[old(s.pos)..])
    ensures value == Join(s.tokens[old(s.pos)..s.At(next)])
  {
    ghost var from, at := s.pos, s.pos;
    ghost var n := Before(s.tokens[from..]);
    value := "";
    next := s.Next();
    if oneWord {
      value := next.value;
      next := s.Next();
    } else {
      while next.Some? && !ColonEnded(next.value)
        invariant s.Valid() && s.Gave(next) && from <= at <= from + n && s.At(next) == at
        invariant value == Join(s.tokens[from..at])
        decreases |s.tokens| - at
      {
        FirstColon(s.tokens, from, at);
        JoinNext(s.tokens, from, at);
        value := Append(value, next.value);
        next := s.Next();
        at := at + 1;
      }
      if next.Some? { FirstColon(s.tokens, from, at); }
    }
  }

  // ------------------------------------------------------------------------------------------- the whole line

  function Chomp(value: string): string {
    if value != "" && value[|value| - 1] == '\n' then value[..|value| - 1] else value
  }

  function Pairs(fs: seq<Field>): seq<(string, string)> {
    if fs == [] then [] else [(Join(fs[0].name), Chomp(Join(fs[0].value)))] + Pairs(fs[1..])
  }

  lemma TwoFields(f: Field, g: Field)
    requires FieldOk(f) && FieldOk(g) && (IsType(f.name) || |g.name| == 1)
    ensures Parse(f.name + f.value + (g.name + g.value)) == Some([f, g])
  {
    var fs, last := [f, g], [g];
    assert fs[1..] == last && last[1..] == [];
    assert Flatten(last) == g.name + g.value + [];
    assert Flatten(fs) == f.name + f.value + Flatten(last);
    assert g.name + g.value + [] == g.name + g.value;
    assert LineOk(last) && LineOk(fs);
    ParseComplete(fs);
  }

  // Lines of /proc/scsi/scsi: one word is the value after `Type:`, and what follows it up to a colon is one name.
  lemma TypeLine()
    ensures Parse(["Type:", "Sequential-Access", "ANSI", "SCSI", "revision:", "03\n"]) ==
            Some([Field(["Type:"], ["Sequential-Access"]), Field(["ANSI", "SCSI", "revision:"], ["03\n"])])
  {
    var f, g := Field(["Type:"], ["Sequential-Access"]), Field(["ANSI", "SCSI", "revision:"], ["03\n"]);
    assert NameOk(f.name) && NameOk(g.name) && NoColon(g.value) && IsType(f.name);
    TwoFields(f, g);
    assert f.name + f.value + (g.name + g.value) ==
           ["Type:", "Sequential-Access", "ANSI", "SCSI", "revision:", "03\n"];
  }

  // Elsewhere a value runs up to the next name.
  lemma VendorLine()
    ensures Parse(["Vendor:", "HP", "C1537A", "Rev:", "L907\n"]) ==
            Some([Field(["Vendor:"], ["HP", "C1537A"]), Field(["Rev:"], ["L907\n"])])
  {
    var f, g := Field(["Vendor:"], ["HP", "C1537A"]), Field(["Rev:"], ["L907\n"]);
    assert NameOk(f.name) && NameOk(g.name) && NoColon(f.value) && NoColon(g.value);
    assert |Join(f.name)| == 7;
    TwoFields(f, g);
    assert f.name + f.value + (g.name + g.value) == ["Vendor:", "HP", "C1537A", "Rev:", "L907\n"];
  }

  // --------------------------------------------------------------------------------------- what the pairs spell

  predicate Words(ts: seq<string>) { forall i :: 0 <= i < |ts| ==> IsWord(ts[i], Blank) }

  function Total(ts: seq<string>): nat { if ts == [] then 0 else Total(ts[..|ts| - 1]) + |ts[|ts| - 1]| }

  // Joined words are the words again when split at blanks, with one blank between neighbours.
  lemma {:induction false} JoinSpells(ts: seq<string>)
    requires Words(ts)
    ensures Tokens(Join(ts), Blank) == ts
    ensures ts != [] ==> |Join(ts)| == Total(ts) + |ts| - 1
  {
    if ts != [] {
      var front, last := ts[..|ts| - 1], ts[|ts| - 1];
      JoinSpells(front);
      JoinedWord(front, Join(front), last);
      assert ts == front + [last];
    }
  }

  lemma JoinedWord(front: seq<string>, joined: string, last: string)
    requires IsWord(last, Blank) && Tokens(joined, Blank) == front
    ensures Tokens(joined + " " + last, Blank) == front + [last] && Tokens(last, Blank) == [last]
  {
    WordAlone(last, Blank);
    TokensAround(joined, ' ', last, Blank);
    assert joined + " " + last == joined + ([' '] + last);
  }

  // A final newline is dropped, and only one.
  lemma ChompDrops(value: string)
    ensures Chomp(value + "\n") == value
    ensures (value == "" || value[|value| - 1] != '\n') ==> Chomp(value) == value
  {
  }

  function ChompWords(ts: seq<string>): seq<string> {
    if ts == [] then [] else
    var front, last := ts[..|ts| - 1], Chomp(ts[|ts| - 1]);
    if last == "" then front else front + [last]
  }

  lemma ChompJoined(x: string, last: string)
    requires last != ""
    ensures Chomp(x + " " + last) == x + ([' '] + Chomp(last))
  {
    var all := x + " " + last;
    assert all[|all| - 1] == last[|last| - 1] && all == x + ([' '] + last);
    if last[|last| - 1] == '\n' { assert all[..|all| - 1] == x + ([' '] + last[..|last| - 1]); }
  }

  lemma ChompedWord(last: string)
    requires IsWord(last, Blank)
    ensures Tokens(Chomp(last), Blank) == if Chomp(last) == "" then [] else [Chomp(last)]
  {
    if Chomp(last) != "" { WordAlone(Chomp(last), Blank); }
  }

  lemma JoinChomps(ts: seq<string>)
    requires Words(ts)
    ensures Tokens(Chomp(Join(ts)), Blank) == ChompWords(ts)
  {
    if ts != [] {
      var front, last := ts[..|ts| - 1], ts[|ts| - 1];
      JoinSpells(front);
      ChompedWord(last);
      assert front + [] == front;
      if front == [] {
        assert [] + [Chomp(last)] == [Chomp(last)];
      } else {
        TokensAround(Join(front), ' ', Chomp(last), Blank);
        ChompJoined(Join(front), last);
      }
    }
  }

  // The words of all names and values, in order.
  function Spelling(pairs: seq<(string, string)>): seq<string> {
    if pairs == [] then [] else
    Tokens(pairs[0].0, Blank) + Tokens(pairs[0].1, Blank) + Spelling(pairs[1..])
  }

  function Chomped(fs: seq<Field>): seq<string> {
    if fs == [] then [] else fs[0].name + ChompWords(fs[0].value) + Chomped(fs[1..])
  }

  // The pairs of a line spell its tokens, name before value, but for the newlines at the ends of values.
  lemma {:induction false} PairsSpell(fs: seq<Field>)
    requires Words(Flatten(fs))
    ensures Spelling(Pairs(fs)) == Chomped(fs)
  {
    if fs != [] {
      var all, rest := Flatten(fs), Flatten(fs[1..]);
      forall i | 0 <= i < |fs[0].name| ensures IsWord(fs[0].name[i], Blank) { assert all[i] == fs[0].name[i]; }
      forall i | 0 <= i < |fs[0].value| ensures IsWord(fs[0].value[i], Blank) {
        assert all[|fs[0].name| + i] == fs[0].value[i];
      }
      forall i | 0 <= i < |rest| ensures IsWord(rest[i], Blank) {
        assert all[|fs[0].name| + |fs[0].value| + i] == rest[i];
      }
      JoinSpells(fs[0].name);
      JoinChomps(fs[0].value);
      PairsSpell(fs[1..]);
      assert Pairs(fs)[1..] == Pairs(fs[1..]);
    }
  }

  // So a parsed line without newlines is spelled by its pairs.
  lemma LineSpelled(line: string)
    requires Parse(Tokens(line, Blank)).Some? && '\n' !in line
    ensures Spelling(Pairs(Parse(Tokens(line, Blank)).value)) == Tokens(line, Blank)
  {
    TokensAreWords(line, Blank);
    ParseSound(Tokens(line, Blank));
    PairsSpell(Parse(Tokens(line, Blank)).value);
    NoNewlines(line);
    NothingChomped(Parse(Tokens(line, Blank)).value);
  }

  lemma {:induction false} NoNewlines(line: string)
    requires '\n' !in line
    ensures forall t :: t in Tokens(line, Blank) ==> '\n' !in t
    decreases |line|
  {
    if line != [] {
      NoNewlines(line[if Blank(line[0]) then 1 else WordLength(line, Blank)..]);
    }
  }

  lemma {:induction false} NothingChomped(fs: seq<Field>)
    requires Words(Flatten(fs)) && forall t :: t in Flatten(fs) ==> '\n' !in t
    ensures Chomped(fs) == Flatten(fs)
  {
    if fs != [] {
      var all, value, rest := Flatten(fs), fs[0].value, Flatten(fs[1..]);
      forall i | 0 <= i < |rest| ensures IsWord(rest[i], Blank) && '\n' !in rest[i] {
        assert all[|fs[0].name| + |value| + i] == rest[i];
      }
      NothingChomped(fs[1..]);
      if value != [] {
        var last := value[|value| - 1];
        assert all[|fs[0].name| + |value| - 1] == last && last in all;
        assert Chomp(last) == last && value[..|value| - 1] + [last] == value;
      }
    }
  }

  // The tokens from i on are a line of fields, or none are left.
  ghost predicate Holds(ts: seq<string>, i: nat, fs: seq<Field>) {
    i <= |ts| && ts[i..] == Flatten(fs) && (fs == [] || LineOk(fs))
  }

  lemma DropFrom(ts: seq<string>, i: nat, end: nat, front: seq<string>, rest: seq<string>)
    requires i <= |ts| && ts[i..] == front + rest && end == i + |front|
    ensures end <= |ts| && ts[end..] == rest
  {
    assert ts[end..] == ts[i..][|front|..];
  }

  lemma NextField(ts: seq<string>, i: nat, end: nat, fs: seq<Field>)
    requires Holds(ts, i, fs) && i < |ts| && fs != [] && end == i + |fs[0].name| + |fs[0].value|
    ensures ParseField(ts[i..]) == Some(fs[0]) && Holds(ts, end, fs[1..])
  {
    var f, rest := fs[0], Flatten(fs[1..]);
    if |fs| > 1 {
      assert LineOk(fs[1..]);
      assert FieldOk(fs[1..][0]);
      assert rest[0] == fs[1].name[0];
    } else {
      assert fs[1..] == [];
    }
    Split(f.name, f.value, rest);
    ParsesField(f, rest);
    DropFrom(ts, i, end, f.name + f.value, rest);
  }

  // Where the parts of the parsed field stand.
  lemma FieldSlices(ts: seq<string>, i: nat, mid: nat, end: nat, f: Field)
    requires i < |ts| && ParseField(ts[i..]) == Some(f) && mid == i + |f.name| && end == mid + |f.value|
    ensures mid == i + Before(ts[i..]) + 1 && end <= |ts|
    ensures f.name == ts[i..mid] && f.value == ts[mid..end]
    ensures |f.value| == if IsType(f.name) then 1 else Before(ts[mid..])
  {
    assert ts[i..mid] == ts[i..][..mid - i] && ts[mid..] == ts[i..][mid - i..];
    assert ts[mid..end] == ts[mid..][..|f.value|];
  }

  // One name and its value, for a line whose parse is known.
  method ReadPair(s: Strtok, curr: string, ghost f: Field, ghost end: nat)
    returns (name: string, value: string, next: Option<string>)
    requires s.Valid() && s.Gave(Some(curr)) && ParseField(s.tokens[s.pos - 1..]) == Some(f)
    requires end == s.pos - 1 + |f.name| + |f.value|
    modifies s
    ensures s.Valid() && s.Gave(next) && name == Join(f.name) && value == Join(f.value)
    ensures s.At(next) == end
  {
    ghost var from, mid := s.pos - 1, s.pos - 1 + |f.name|;
    FieldSlices(s.tokens, from, mid, end, f);
    name := GetName(s, curr);
    assert s.pos == mid;
    assert name == Join(s.tokens[from..mid]) == Join(f.name);
    assert end == mid + if name == "Type:" then 1 else Before(s.tokens[mid..]);
    value, next := GetValue(s, name == "Type:");
    assert s.At(next) == end;
    assert value == Join(s.tokens[mid..end]);
  }

  lemma PairsStep(done: seq<(string, string)>, fs: seq<Field>)
    requires fs != []
    ensures done + Pairs(fs) == done + [(Join(fs[0].name), Chomp(Join(fs[0].value)))] + Pairs(fs[1..])
  {
  }

  lemma SomeField(ts: seq<string>, i: nat, fs: seq<Field>)
    requires Holds(ts, i, fs) && i < |ts|
    ensures fs != []
  {
  }

  // One turn of the loop: a name and its value.
  method ReadField(s: Strtok, curr: string, ghost fs: seq<Field>)
    returns (name: string, value: string, next: Option<string>)
    requires s.Valid() && s.Gave(Some(curr)) && Holds(s.tokens, s.pos - 1, fs)
    modifies s
    ensures s.Valid() && s.Gave(next) && fs != [] && Holds(s.tokens, s.At(next), fs[1..])
    ensures name == Join(fs[0].name) && value == Join(fs[0].value)
  {
    SomeField(s.tokens, s.pos - 1, fs);
    ghost var end := s.pos - 1 + |fs[0].name| + |fs[0].value|;
    NextField(s.tokens, s.pos - 1, end, fs);
    name, value, next := ReadPair(s, curr, fs[0], end);
  }

  // The do-while loop of get_scsi_info on one line: it ends, and yields the names and values of the line's fields.
  method ParseLine(line: string) returns (pairs: seq<(string, string)>)
    requires Parse(Tokens(line, Blank)).Some?
    ensures pairs == Pairs(Parse(Tokens(line, Blank)).value)
  {
    var s := new Strtok(line);
    ParseSound(s.tokens);
    ghost var fs := Parse(s.tokens).value;
    pairs := [];
    assert s.tokens[0..] == s.tokens;
    var next := s.Next();
    while next.Some?
      invariant s.Valid() && s.Gave(next) && Holds(s.tokens, s.At(next), fs)
      invariant Pairs(Parse(s.tokens).value) == pairs + Pairs(fs)
      decreases |fs|
    {
      var name, value;
      name, value, next := ReadField(s, next.value, fs);
      PairsStep(pairs, fs);
      pairs := pairs + [(name, Chomp(value))];
      fs := fs[1..];
    }
    assert fs == [];
  }
}
