/** A project's environment as text: lines KEY=VALUE read into a map, and a map
    rendered as sorted lines. */
module EnvText {
  import opened Options
  import opened Strings
  import opened Sorting

  type Env = map<string, string>

  // ---- reading ----

  predicate IsSpace(ch: char)
  {
    || ch == ' ' || '\U{9}' <= ch <= '\U{D}' || ch == '\U{85}' || ch == '\U{A0}' || ch == '\U{1680}'
    || '\U{2000}' <= ch <= '\U{200A}' || ch == '\U{2028}' || ch == '\U{2029}' || ch == '\U{202F}' || ch == '\U{205F}'
    || ch == '\U{3000}'
  }

  function TrimLeft(s: string): string
  {
    if s != [] && IsSpace(s[0]) then TrimLeft(s[1..]) else s
  }

  function TrimRight(s: string): string
  {
    if s != [] && IsSpace(s[|s| - 1]) then TrimRight(s[..|s| - 1]) else s
  }

  function Trim(s: string): string
  {
    TrimRight(TrimLeft(s))
  }

  /** Cut at every line feed; there is always a last line. */
  function Lines(s: string): (lines: seq<string>)
    ensures lines != []
  {
    var i := IndexOf(s, '\n');
    if i == |s| then [s] else [s[..i]] + Lines(s[i + 1..])
  }

  /** What a line says: nothing if it is blank, a comment, or has no key. */
  function Entry(line: string): Option<(string, string)>
  {
    var t := Trim(line);
    if t == "" || t[0] == '#' then None
    else
      var i := IndexOf(t, '=');
      if i == 0 || i == |t| then None else Some((Trim(t[..i]), Trim(t[i + 1..])))
  }

  function Add(kv: Env, line: string): Env
  {
    match Entry(line)
    case None => kv
    case Some((k, v)) => kv[k := v]
  }

  function AddAll(kv: Env, lines: seq<string>): Env
    decreases |lines|
  {
    if lines == [] then kv else AddAll(Add(kv, lines[0]), lines[1..])
  }

  function Parse(text: string): Env
  {
    AddAll(map[], Lines(text))
  }

  method ParseEnvText(text: string) returns (kv: Env)
    ensures kv == Parse(text)
  {
    kv := map[];
    var lines := Lines(text);
    var n := 0;
    while n < |lines|
      invariant 0 <= n <= |lines|
      invariant AddAll(kv, lines[n..]) == Parse(text)
    {
      var line := Trim(lines[n]);
      n := n + 1;
      if line == "" || line[0] == '#' {
        continue;
      }
      var i := IndexOf(line, '=');
      if 0 < i < |line| {
        kv := kv[Trim(line[..i]) := Trim(line[i + 1..])];
      }
    }
  }

  // ---- writing ----

  function Line(k: string, v: string): string
  {
    k + "=" + v
  }

  function Render(keys: seq<string>, kv: Env): string
    requires forall k :: k in keys ==> k in kv
  {
    if keys == [] then "" else Line(keys[0], kv[keys[0]]) + "\n" + Render(keys[1..], kv)
  }

  /** `keys` are the keys of the map in ascending order. */
  ghost predicate Ordered(keys: seq<string>, kv: Env)
  {
    Ascending(Less, keys) && forall k :: k in keys <==> k in kv
  }

  /** The keys, gathered in any order, sorted. */
  method SortedKeys(kv: Env) returns (sorted: seq<string>)
    ensures Ordered(sorted, kv)
  {
    LessIsStrictTotal();
    sorted := [];
    var todo := kv.Keys;
    while todo != {}
      invariant todo <= kv.Keys && Ascending(Less, sorted)
      invariant forall k :: k in sorted <==> k in kv && k !in todo
      decreases todo
    {
      var k :| k in todo;
      InsertAscends(Less, k, sorted);
      sorted := Insert(Less, k, sorted);
      todo := todo - {k};
    }
  }

  lemma RenderFrom(keys: seq<string>, n: nat, kv: Env, text: string)
    requires n < |keys| && forall k :: k in keys ==> k in kv
    ensures text + Render(keys[n..], kv) == (text + (Line(keys[n], kv[keys[n]]) + "\n")) + Render(keys[n + 1..], kv)
  {
    var line, rest := Line(keys[n], kv[keys[n]]) + "\n", Render(keys[n + 1..], kv);
    assert keys[n..][1..] == keys[n + 1..];
    Grouping(text, line, rest);
  }

  lemma Grouping(a: string, b: string, c: string)
    ensures a + (b + c) == (a + b) + c
  {
  }

  method RenderKeys(keys: seq<string>, kv: Env) returns (text: string)
    requires forall k :: k in keys ==> k in kv
    ensures text == Render(keys, kv)
  {
    text := "";
    var n := 0;
    while n < |keys|
      invariant 0 <= n <= |keys|
      invariant text + Render(keys[n..], kv) == Render(keys, kv)
    {
      RenderFrom(keys, n, kv, text);
      text := text + (Line(keys[n], kv[keys[n]]) + "\n");
      n := n + 1;
    }
  }

  /** Renders the map, a line for each key. */
  method EnvText(kv: Env) returns (text: string)
    ensures exists keys :: Ordered(keys, kv) && text == Render(keys, kv)
  {
    var sorted := SortedKeys(kv);
    text := RenderKeys(sorted, kv);
  }

  /** The order in which the keys were gathered does not show. */
  lemma RenderingIsUnique(kv: Env, a: seq<string>, b: seq<string>)
    requires Ordered(a, kv) && Ordered(b, kv)
    ensures Render(a, kv) == Render(b, kv)
  {
    LessIsStrictTotal();
    SortedIsUnique(Less, a, b);
  }

  // ---- what survives ----

  predicate Trimmed(s: string)
  {
    s == "" || (!IsSpace(s[0]) && !IsSpace(s[|s| - 1]))
  }

  /** A key: not empty, no space around it, no '=', no '#' in front. */
  predicate IsKey(k: string)
  {
    k != "" && Trimmed(k) && k[0] != '#' && '=' !in k
  }

  /** A key and a value that a line can carry. */
  predicate CleanKey(k: string)
  {
    IsKey(k) && '\n' !in k
  }

  predicate CleanValue(v: string)
  {
    Trimmed(v) && '\n' !in v
  }

  ghost predicate Clean(kv: Env)
  {
    forall k :: k in kv ==> CleanKey(k) && CleanValue(kv[k])
  }

  lemma {:induction false} TrimLeftIsPart(s: string)
    ensures TrimLeft(s) == "" || !IsSpace(TrimLeft(s)[0])
    ensures forall ch :: ch in TrimLeft(s) ==> ch in s
  {
    if s != [] && IsSpace(s[0]) {
      TrimLeftIsPart(s[1..]);
    }
  }

  lemma {:induction false} TrimRightIsPart(s: string)
    ensures var t := TrimRight(s); t == "" || (!IsSpace(t[|t| - 1]) && t[0] == s[0])
    ensures forall ch :: ch in TrimRight(s) ==> ch in s
    ensures s != "" && !IsSpace(s[0]) ==> TrimRight(s) != ""
  {
    if s != [] && IsSpace(s[|s| - 1]) {
      TrimRightIsPart(s[..|s| - 1]);
    }
  }

  lemma TrimIsPart(s: string)
    ensures Trimmed(Trim(s))
    ensures forall ch :: ch in Trim(s) ==> ch in s
    ensures s != "" && !IsSpace(s[0]) ==> Trim(s) != "" && Trim(s)[0] == s[0]
    ensures Trimmed(s) ==> Trim(s) == s
  {
    TrimLeftIsPart(s);
    TrimRightIsPart(TrimLeft(s));
  }

  /** Whatever a line says is clean, if the line has no line feed in it. */
  lemma EntryIsClean(line: string)
    requires '\n' !in line && Entry(line).Some?
    ensures CleanKey(Entry(line).value.0) && CleanValue(Entry(line).value.1)
  {
    var t := Trim(line);
    var i := IndexOf(t, '=');
    TrimIsPart(line);
    TrimIsPart(t[..i]);
    TrimIsPart(t[i + 1..]);
    assert forall ch :: ch in t[..i] || ch in t[i + 1..] ==> ch in t;
    assert t[..i][0] == t[0];
  }

  lemma {:induction false} LinesHaveNoFeed(s: string)
    ensures forall line :: line in Lines(s) ==> '\n' !in line
  {
    var i := IndexOf(s, '\n');
    if i == |s| {
      assert s[..i] == s;
    } else {
      LinesHaveNoFeed(s[i + 1..]);
    }
  }

  lemma {:induction false} AddAllIsClean(kv: Env, lines: seq<string>)
    requires Clean(kv) && forall line :: line in lines ==> '\n' !in line
    ensures Clean(AddAll(kv, lines))
    decreases |lines|
  {
    if lines != [] {
      assert lines[0] in lines;
      if Entry(lines[0]).Some? {
        EntryIsClean(lines[0]);
      }
      AddAllIsClean(Add(kv, lines[0]), lines[1..]);
    }
  }

  /** Only clean maps come out of reading. */
  lemma ParseIsClean(text: string)
    ensures Clean(Parse(text))
  {
    LinesHaveNoFeed(text);
    AddAllIsClean(map[], Lines(text));
  }

  lemma EntryOfLine(k: string, v: string)
    requires CleanKey(k) && CleanValue(v)
    ensures Entry(Line(k, v)) == Some((k, v)) && '\n' !in Line(k, v)
  {
    var t := Line(k, v);
    assert t[0] == k[0] && t[|t| - 1] == if v == "" then '=' else v[|v| - 1];
    TrimIsPart(t);
    TrimIsPart(k);
    TrimIsPart(v);
    IndexOfFirst(k, '=', v);
    assert t[..|k|] == k && t[|k| + 1..] == v;
  }

  lemma LinesOfRender(line: string, rest: string)
    requires '\n' !in line
    ensures Lines(line + "\n" + rest) == [line] + Lines(rest)
  {
    var s := line + "\n" + rest;
    IndexOfFirst(line, '\n', rest);
    assert s[..|line|] == line && s[|line| + 1..] == rest;
  }

  function Chosen(m: Env, keys: seq<string>): Env
    requires forall k :: k in keys ==> k in m
  {
    map k | k in keys :: m[k]
  }

  lemma ChosenFirst(kv: Env, keys: seq<string>, m: Env)
    requires keys != [] && forall k :: k in keys ==> k in m
    ensures kv[keys[0] := m[keys[0]]] + Chosen(m, keys[1..]) == kv + Chosen(m, keys)
  {
    assert keys == [keys[0]] + keys[1..];
  }

  lemma AddFirst(kv: Env, line: string, rest: seq<string>)
    ensures AddAll(kv, [line] + rest) == AddAll(Add(kv, line), rest)
  {
    assert ([line] + rest)[1..] == rest;
  }

  lemma {:induction false} RenderedIsRead(kv: Env, keys: seq<string>, m: Env)
    requires Clean(m) && forall k :: k in keys ==> k in m
    ensures AddAll(kv, Lines(Render(keys, m))) == kv + Chosen(m, keys)
    decreases |keys|
  {
    if keys == [] {
      BlankLine(kv);
    } else {
      var line, rest := Line(keys[0], m[keys[0]]), Render(keys[1..], m);
      EntryOfLine(keys[0], m[keys[0]]);
      LinesOfRender(line, rest);
      AddFirst(kv, line, Lines(rest));
      RenderedIsRead(Add(kv, line), keys[1..], m);
      ChosenFirst(kv, keys, m);
    }
  }

  lemma BlankLine(kv: Env)
    ensures AddAll(kv, Lines("")) == kv
  {
    assert Lines("") == [""];
    assert Trim("") == "";
    assert Add(kv, "") == kv;
  }

  // ---- what is read from any text ----

  ghost predicate Blank(s: string)
  {
    forall ch :: ch in s ==> IsSpace(ch)
  }

  lemma {:induction false} TrimLeftBlank(a: string, s: string)
    requires Blank(a) && (s == "" || !IsSpace(s[0]))
    ensures TrimLeft(a + s) == s
  {
    if a == "" {
      assert a + s == s;
    } else {
      assert a[0] in a && (a + s)[1..] == a[1..] + s;
      TrimLeftBlank(a[1..], s);
    }
  }

  lemma {:induction false} TrimRightBlank(s: string, e: string)
    requires Blank(e) && (s == "" || !IsSpace(s[|s| - 1]))
    ensures TrimRight(s + e) == s
  {
    if e == "" {
      assert s + e == s;
    } else {
      var n := |e| - 1;
      assert e[n] in e && (s + e)[..|s + e| - 1] == s + e[..n];
      TrimRightBlank(s, e[..n]);
    }
  }

  /** Trimming takes away exactly the space around a text. */
  lemma TrimPadded(a: string, s: string, e: string)
    requires Blank(a) && Blank(e) && Trimmed(s)
    ensures Trim(a + s + e) == s
  {
    if s == "" {
      assert a + s + e == (a + e) + "";
      TrimLeftBlank(a + e, "");
      assert TrimRight("") == "";
    } else {
      assert a + s + e == a + (s + e);
      TrimLeftBlank(a, s + e);
      TrimRightBlank(s, e);
    }
  }

  lemma {:induction false} TrimLeftSplits(s: string) returns (a: string)
    ensures Blank(a) && s == a + TrimLeft(s)
  {
    a := "";
    if s != "" && IsSpace(s[0]) {
      var rest := TrimLeftSplits(s[1..]);
      a := [s[0]] + rest;
    }
  }

  lemma {:induction false} TrimRightSplits(s: string) returns (e: string)
    ensures Blank(e) && s == TrimRight(s) + e
  {
    e := "";
    if s != "" && IsSpace(s[|s| - 1]) {
      var rest := TrimRightSplits(s[..|s| - 1]);
      e := rest + [s[|s| - 1]];
    }
  }

  lemma TrimSplits(s: string) returns (a: string, e: string)
    ensures Blank(a) && Blank(e) && s == a + Trim(s) + e
  {
    a := TrimLeftSplits(s);
    e := TrimRightSplits(TrimLeft(s));
  }

  /** The line with key `k` and value `v`, with space `a`, `b`, `d`, `e` around them. */
  function Padded(a: string, k: string, b: string, d: string, v: string, e: string): string
  {
    a + (k + b + "=" + d + v) + e
  }

  /** A line that says something: a key, an equals sign, a value, and space. */
  ghost predicate Says(line: string, k: string, v: string)
  {
    IsKey(k) && Trimmed(v)
    && exists a, b, d, e :: Blank(a) && Blank(b) && Blank(d) && Blank(e) && line == Padded(a, k, b, d, v, e)
  }

  /** What is left of a padded line once the space at its end is cut. */
  lemma CoreOf(k: string, b: string, d: string, v: string, e: string) returns (core: string, d': string, e': string)
    requires IsKey(k) && Trimmed(v) && Blank(b) && Blank(d) && Blank(e)
    ensures Blank(d') && Blank(e') && core == k + b + "=" + d' + v && Trimmed(core)
    ensures core + e' == (k + b + "=" + d + v) + e
  {
    if v == "" {
      core, d', e' := k + b + "=", "", d + e;
      Grouping(core, d, e);
    } else {
      core, d', e' := k + b + "=" + d + v, d, e;
    }
    assert core[0] == k[0] && core[|core| - 1] == if v == "" then '=' else v[|v| - 1];
  }

  lemma PaddedIsRead(a: string, k: string, b: string, d: string, v: string, e: string)
    requires IsKey(k) && Trimmed(v) && Blank(a) && Blank(b) && Blank(d) && Blank(e)
    ensures Entry(Padded(a, k, b, d, v, e)) == Some((k, v))
  {
    var core, d', e' := CoreOf(k, b, d, v, e);
    Grouping(a, k + b + "=" + d + v, e);
    Grouping(a, core, e');
    TrimPadded(a, core, e');
    assert '=' !in k + b;
    assert core == (k + b) + ['='] + (d' + v);
    IndexOfFirst(k + b, '=', d' + v);
    assert core[..|k + b|] == k + b && core[|k + b| + 1..] == d' + v;
    assert k + b == "" + k + b;
    TrimPadded("", k, b);
    assert d' + v == d' + v + "";
    TrimPadded(d', v, "");
    assert core[0] == k[0];
  }

  /** What is before the equals sign is the key and space. */
  lemma KeyPart(s: string) returns (b: string)
    requires s != "" && !IsSpace(s[0]) && s[0] != '#' && '=' !in s
    ensures Blank(b) && s == Trim(s) + b && IsKey(Trim(s))
  {
    var a;
    a, b := TrimSplits(s);
    TrimIsPart(s);
    NoPadInFront(a, Trim(s), b, s);
    assert "" + Trim(s) + b == Trim(s) + b;
  }

  lemma {:induction false} CutInTwo(t: string, i: nat)
    requires i == IndexOf(t, '=') && 0 < i < |t|
    ensures t == t[..i] + "=" + t[i + 1..] && '=' !in t[..i] && t[..i] != "" && t[..i][0] == t[0]
  {
  }

  lemma {:induction false} ReadIsPadded(line: string)
    requires Entry(line).Some?
    ensures Says(line, Entry(line).value.0, Entry(line).value.1)
  {
    var t := Trim(line);
    var i := IndexOf(t, '=');
    CutInTwo(t, i);
    TrimIsPart(line);
    TrimIsPart(t[i + 1..]);
    var a, e := TrimSplits(line);
    var b := KeyPart(t[..i]);
    var d, e' := TrimSplits(t[i + 1..]);
    SaysIt(line, t, t[..i], t[i + 1..], a, b, d, e', e);
  }

  lemma {:induction false} SaysIt(line: string, t: string, s: string, r: string, a: string, b: string, d: string,
                                  e': string, e: string)
    requires line == a + t + e && t == s + "=" + r && s == Trim(s) + b && r == d + Trim(r) + e'
    requires Blank(a) && Blank(b) && Blank(d) && Blank(e') && Blank(e) && IsKey(Trim(s)) && Trimmed(Trim(r))
    ensures Says(line, Trim(s), Trim(r))
  {
    var k, v := Trim(s), Trim(r);
    LineOf(a, k, b, d, v, e', e, line);
    assert Blank(e' + e);
  }

  lemma {:induction false} LineOf(a: string, k: string, b: string, d: string, v: string, e': string, e: string,
                                  line: string)
    requires line == a + ((k + b) + "=" + (d + v + e')) + e
    ensures line == Padded(a, k, b, d, v, e' + e)
  {
    var head, core := k + b + "=", k + b + "=" + d + v;
    Grouping(head, d + v, e');
    Grouping(head, d, v);
    assert head + (d + v + e') == core + e';
    Grouping(a, core, e');
    Grouping(a + core, e', e);
  }

  lemma NoPadInFront(a: string, k: string, b: string, s: string)
    requires Blank(a) && s == a + k + b && s != "" && !IsSpace(s[0])
    ensures a == ""
  {
    if a != "" {
      StartsIn(a, k + b, s);
    }
  }

  lemma StartsIn(a: string, rest: string, s: string)
    requires a != "" && s == a + rest
    ensures s != "" && s[0] in a
  {
  }

  /** A line reads as a key and a value exactly if it consists of them, the equals
      sign and space; every other line, blank, comment or without a key, says
      nothing. */
  lemma ReadsExactly(line: string, k: string, v: string)
    ensures Entry(line) == Some((k, v)) <==> Says(line, k, v)
  {
    if Entry(line) == Some((k, v)) {
      ReadIsPadded(line);
    }
    if Says(line, k, v) {
      var a, b, d, e :| Blank(a) && Blank(b) && Blank(d) && Blank(e) && line == Padded(a, k, b, d, v, e);
      PaddedIsRead(a, k, b, d, v, e);
    }
  }

  /** Lines put together again, with a line feed between any two. */
  function Joined(lines: seq<string>): string
  {
    if lines == [] then "" else if |lines| == 1 then lines[0] else lines[0] + "\n" + Joined(lines[1..])
  }

  /** The lines are those of the text: put together they are the text, and none has
      a line feed in it. */
  lemma {:induction false} LinesAreTheText(s: string)
    ensures Joined(Lines(s)) == s && forall line :: line in Lines(s) ==> '\n' !in line
  {
    LinesHaveNoFeed(s);
    var i := IndexOf(s, '\n');
    if i < |s| {
      LinesAreTheText(s[i + 1..]);
      JoinedMore(s[..i], Lines(s[i + 1..]));
      assert s == s[..i] + "\n" + s[i + 1..];
    }
  }

  lemma JoinedMore(line: string, rest: seq<string>)
    requires rest != []
    ensures Joined([line] + rest) == line + "\n" + Joined(rest)
  {
    assert ([line] + rest)[1..] == rest;
  }

  ghost predicate Unsaid(lines: seq<string>, k: string)
  {
    forall j, v :: 0 <= j < |lines| ==> !Says(lines[j], k, v)
  }

  /** Line `i` is the last that says something of `k`, and says `v`. */
  ghost predicate LastSays(lines: seq<string>, i: nat, k: string, v: string)
  {
    i < |lines| && Says(lines[i], k, v) && Unsaid(lines[i + 1..], k)
  }

  ghost predicate SaidLast(lines: seq<string>, k: string, v: string)
  {
    exists i :: LastSays(lines, i, k, v)
  }

  lemma SaidAtFront(lines: seq<string>, k: string, v: string)
    requires lines != []
    ensures SaidLast(lines, k, v) <==> SaidLast(lines[1..], k, v) || (Says(lines[0], k, v) && Unsaid(lines[1..], k))
  {
    var rest := lines[1..];
    if i: nat :| LastSays(rest, i, k, v) {
      assert rest[i + 1..] == lines[i + 2..];
      assert LastSays(lines, i + 1, k, v);
    }
    if i: nat :| LastSays(lines, i, k, v) && i > 0 {
      assert rest[i..] == lines[i + 1..];
      assert LastSays(rest, i - 1, k, v);
    }
    if Says(lines[0], k, v) && Unsaid(rest, k) {
      assert LastSays(lines, 0, k, v);
    }
  }

  lemma UnsaidAtFront(lines: seq<string>, k: string)
    requires lines != []
    ensures Unsaid(lines, k) <==> Unsaid(lines[1..], k) && forall v :: !Says(lines[0], k, v)
  {
    var rest := lines[1..];
    assert forall j :: 0 < j < |lines| ==> lines[j] == rest[j - 1];
  }

  /** Something was said of the key last, or nothing at all. */
  lemma {:induction false} SaidOrUnsaid(lines: seq<string>, k: string)
    ensures Unsaid(lines, k) <==> forall v :: !SaidLast(lines, k, v)
  {
    if lines != [] {
      SaidOrUnsaid(lines[1..], k);
      UnsaidAtFront(lines, k);
      forall v ensures SaidLast(lines, k, v) <==>
                         SaidLast(lines[1..], k, v) || (Says(lines[0], k, v) && Unsaid(lines[1..], k)) {
        SaidAtFront(lines, k, v);
      }
    } else {
      assert forall v, i :: !LastSays(lines, i, k, v);
    }
  }

  predicate Reads(kv: Env, k: string, v: string)
  {
    k in kv && kv[k] == v
  }

  lemma AddReads(kv: Env, line: string, k: string, v: string)
    ensures Reads(Add(kv, line), k, v) <==> Says(line, k, v) || (Reads(kv, k, v) && forall v' :: !Says(line, k, v'))
  {
    forall v' ensures Entry(line) == Some((k, v')) <==> Says(line, k, v') {
      ReadsExactly(line, k, v');
    }
  }

  lemma {:induction false} AddAllExactly(kv: Env, lines: seq<string>, k: string, v: string)
    ensures Reads(AddAll(kv, lines), k, v) <==> SaidLast(lines, k, v) || (Reads(kv, k, v) && Unsaid(lines, k))
    decreases |lines|
  {
    if lines == [] {
      assert forall i :: !LastSays(lines, i, k, v);
    } else {
      AddAllExactly(Add(kv, lines[0]), lines[1..], k, v);
      AddReads(kv, lines[0], k, v);
      SaidAtFront(lines, k, v);
      UnsaidAtFront(lines, k);
    }
  }

  /** What is read from any text: a key has a value exactly if the last line that
      says something of the key says that. */
  lemma ParseExactly(text: string, k: string, v: string)
    ensures Reads(Parse(text), k, v) <==> SaidLast(Lines(text), k, v)
  {
    AddAllExactly(map[], Lines(text), k, v);
  }

  /** What is written: a line for each key, in order, and nothing else. */
  lemma {:induction false} RenderExactly(keys: seq<string>, kv: Env)
    requires forall k :: k in keys ==> k in kv && '\n' !in k && '\n' !in kv[k]
    ensures |Lines(Render(keys, kv))| == |keys| + 1 && Lines(Render(keys, kv))[|keys|] == ""
    ensures forall i :: 0 <= i < |keys| ==> Lines(Render(keys, kv))[i] == keys[i] + "=" + kv[keys[i]]
  {
    if keys != [] {
      RenderExactly(keys[1..], kv);
      LinesOfRender(Line(keys[0], kv[keys[0]]), Render(keys[1..], kv));
    }
  }

  // ---- main results ----

  /** A map comes back from its text exactly when it is clean. */
  lemma RoundTrip(kv: Env, keys: seq<string>)
    requires Ordered(keys, kv)
    ensures Parse(Render(keys, kv)) == kv <==> Clean(kv)
  {
    if Clean(kv) {
      RenderedIsRead(map[], keys, kv);
    }
    ParseIsClean(Render(keys, kv));
  }

  /** Viewing the environment and saving what was shown changes nothing. */
  lemma ViewAndSave(text: string, keys: seq<string>)
    requires Ordered(keys, Parse(text))
    ensures Parse(Render(keys, Parse(text))) == Parse(text)
  {
    ParseIsClean(text);
    RoundTrip(Parse(text), keys);
  }
}
