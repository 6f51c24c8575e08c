/** The dotenv parser, and the environment a child is started with. */
module Dotenv {
  import opened Wrappers
  import opened Text
  import opened Labels
  import opened Ordering
  import opened Hosts

  datatype Line = Blank | NoEquals | EmptyKey | Pair(key: string, value: string)

  /** The first offending line, counted from one, and whether it lacked `=` or a key. */
  datatype DotenvError = DotenvError(lineno: nat, what: Line)

  function StripCr(s: string): string {
    if s != "" && s[|s| - 1] == '\r' then s[..|s| - 1] else s
  }

  /** Lines end at a line feed; a carriage return just before it goes too. */
  function Lines(raw: string): seq<string> {
    if raw == "" then []
    else match Find(raw, '\n')
      case None => [raw]
      case Some(i) => [StripCr(raw[..i])] + Lines(raw[i + 1..])
  }

  function StripQuotes(s: string): string {
    if |s| >= 2 && s[0] == s[|s| - 1] && (s[0] == '"' || s[0] == '\'') then s[1..|s| - 1] else s
  }

  function ReadLine(line: string): Line {
    var t := Trim(line, IsWhitespace);
    if t == "" || t[0] == '#' then Blank
    else match Find(t, '=')
      case None => NoEquals
      case Some(i) =>
        var key := Trim(t[..i], IsWhitespace);
        if key == "" then EmptyKey else Pair(key, StripQuotes(Trim(t[i + 1..], IsWhitespace)))
  }

  predicate Bad(l: Line) {
    l.NoEquals? || l.EmptyKey?
  }

  function ReadAll(lines: seq<string>): (r: seq<Line>)
    ensures |r| == |lines| && forall i :: 0 <= i < |lines| ==> r[i] == ReadLine(lines[i])
  {
    seq(|lines|, i requires 0 <= i < |lines| => ReadLine(lines[i]))
  }

  /** Fold the lines into a map; the first bad one ends it. */
  function Fold(ls: seq<Line>): Result<map<string, string>, DotenvError> {
    if ls == [] then Ok(map[])
    else
      match Fold(ls[..|ls| - 1])
      case Err(e) => Err(e)
      case Ok(m) => FoldOne(m, ls[|ls| - 1], |ls|)
  }

  function FoldOne(m: map<string, string>, l: Line, lineno: nat): Result<map<string, string>, DotenvError> {
    match l
    case Blank => Ok(m)
    case Pair(k, v) => Ok(m[k := v])
    case _ => Err(DotenvError(lineno, l))
  }

  function DotenvOf(raw: string): Result<map<string, string>, DotenvError> {
    Fold(ReadAll(Lines(raw)))
  }

  method ParseDotenv(raw: string) returns (r: Result<map<string, string>, DotenvError>)
    ensures r == DotenvOf(raw)
  {
    var lines := Lines(raw);
    ghost var ls := ReadAll(lines);
    var out: map<string, string> := map[];
    for i := 0 to |lines|
      invariant Fold(ls[..i]) == Ok(out)
    {
      FoldStep(ls, i);
      var l := ReadLine(lines[i]);
      if Bad(l) {
        ErrStays(ls, i + 1);
        return Err(DotenvError(i + 1, l));
      }
      out := if l.Pair? then out[l.key := l.value] else out;
    }
    assert ls[..|lines|] == ls;
    r := Ok(out);
  }

  lemma FoldStep(ls: seq<Line>, i: nat)
    requires i < |ls| && Fold(ls[..i]).Ok?
    ensures Fold(ls[..i + 1]) == FoldOne(Fold(ls[..i]).value, ls[i], i + 1)
  {
    assert ls[..i + 1][..i] == ls[..i];
  }

  lemma {:induction false} ErrStays(ls: seq<Line>, k: nat)
    requires k <= |ls| && Fold(ls[..k]).Err?
    ensures Fold(ls) == Fold(ls[..k])
    decreases |ls|
  {
    if k < |ls| {
      assert ls[..|ls| - 1][..k] == ls[..k];
      ErrStays(ls[..|ls| - 1], k);
    } else {
      assert ls[..k] == ls;
    }
  }

  // ---------------------------------------------------------------- what a parse means

  /** Line `i` is the last one to set `k`, and sets it to `v`. */
  ghost predicate LastSets(ls: seq<Line>, i: int, k: string, v: string) {
    && 0 <= i < |ls| && ls[i] == Pair(k, v)
    && forall j :: i < j < |ls| ==> !(ls[j].Pair? && ls[j].key == k)
  }

  predicate Gives(m: map<string, string>, k: string, v: string) {
    k in m && m[k] == v
  }

  /** A parse succeeds exactly when no line is bad. */
  lemma {:induction false} FoldSucceeds(ls: seq<Line>)
    ensures Fold(ls).Ok? <==> forall i :: 0 <= i < |ls| ==> !Bad(ls[i])
    decreases |ls|
  {
    if ls != [] {
      FoldSucceeds(ls[..|ls| - 1]);
      assert ls == ls[..|ls| - 1] + [ls[|ls| - 1]];
    }
  }

  /** Each key has the value of the last line that sets it, and there are no other keys. */
  lemma {:induction false} FoldMeaning(ls: seq<Line>, k: string, v: string)
    requires Fold(ls).Ok?
    ensures Gives(Fold(ls).value, k, v) <==> exists i :: LastSets(ls, i, k, v)
    decreases |ls|
  {
    if ls != [] {
      var n := |ls| - 1;
      FoldMeaning(ls[..n], k, v);
      if ls[n].Pair? && ls[n].key == k {
        assert ls[n].value == v ==> LastSets(ls, n, k, v);
      } else {
        LastSetsInFront(ls, ls[..n], k, v);
      }
    }
  }

  lemma LastSetsInFront(ls: seq<Line>, front: seq<Line>, k: string, v: string)
    requires ls != [] && !(ls[|ls| - 1].Pair? && ls[|ls| - 1].key == k) && front == ls[..|ls| - 1]
    ensures (exists i :: LastSets(ls, i, k, v)) <==> exists i :: LastSets(front, i, k, v)
  {
    if i :| LastSets(front, i, k, v) {
      assert LastSets(ls, i, k, v);
    }
    if i :| LastSets(ls, i, k, v) {
      assert LastSets(front, i, k, v);
    }
  }

  /** The error is about the first bad line. */
  lemma {:induction false} ErrorIsFirst(ls: seq<Line>)
    requires Fold(ls).Err?
    ensures var e := Fold(ls).error;
            && 1 <= e.lineno <= |ls| && ls[e.lineno - 1] == e.what && Bad(e.what)
            && forall i :: 0 <= i < e.lineno - 1 ==> !Bad(ls[i])
    decreases |ls|
  {
    var front := ls[..|ls| - 1];
    if Fold(front).Err? {
      ErrorIsFirst(front);
    } else {
      FoldSucceeds(front);
      assert forall i :: 0 <= i < |front| ==> front[i] == ls[i];
    }
  }

  // ---------------------------------------------------------------- round trip

  function QuotedLine(k: string, v: string): string {
    k + "=" + Quoted(v)
  }

  /** One `KEY="VALUE"` line per key. */
  function Render(keys: seq<string>, m: map<string, string>): string
    requires forall k <- keys :: k in m
  {
    if keys == [] then "" else QuotedLine(keys[0], m[keys[0]]) + "\n" + Render(keys[1..], m)
  }

  predicate CanonicalKey(k: string) {
    k != "" && !IsWhitespace(k[0]) && !IsWhitespace(k[|k| - 1]) && '=' !in k && '\n' !in k && k[0] != '#'
  }

  lemma TrimNothing(s: string)
    requires s != "" && !IsWhitespace(s[0]) && !IsWhitespace(s[|s| - 1])
    ensures Trim(s, IsWhitespace) == s
  {}

  function Quoted(v: string): string {
    "\"" + v + "\""
  }

  lemma QuotedShape(v: string)
    ensures |Quoted(v)| == |v| + 2 && Quoted(v)[0] == '"' && Quoted(v)[|v| + 1] == '"' && Quoted(v)[1..|v| + 1] == v
  {}

  lemma StripQuoted(v: string)
    ensures StripQuotes(Quoted(v)) == v
  {
    QuotedShape(v);
  }

  lemma LineShape(k: string, q: string)
    requires k != "" && q != "" && '=' !in k
    ensures var line := k + "=" + q;
            && line != "" && line[0] == k[0] && line[|line| - 1] == q[|q| - 1]
            && Find(line, '=') == Some(|k|) && line[..|k|] == k && line[|k| + 1..] == q
  {
    var line := k + "=" + q;
    assert line[|k|] == '=' && line[..|k|] == k;
    FindIs(line, '=', |k|);
  }

  lemma ReadQuoted(k: string, v: string)
    requires CanonicalKey(k)
    ensures ReadLine(QuotedLine(k, v)) == Pair(k, v)
  {
    QuotedShape(v);
    LineShape(k, Quoted(v));
    TrimNothing(QuotedLine(k, v));
    TrimNothing(k);
    TrimNothing(Quoted(v));
    StripQuoted(v);
  }

  lemma LinesOne(line: string, rest: string)
    requires '\n' !in line && line != "" && line[|line| - 1] != '\r'
    ensures Lines(line + "\n" + rest) == [line] + Lines(rest)
  {
    var raw := line + "\n" + rest;
    assert raw[|line|] == '\n' && raw[..|line|] == line && raw[|line| + 1..] == rest;
    FindIs(raw, '\n', |line|);
  }

  lemma QuotedPlain(k: string, v: string)
    requires '\n' !in k && '\n' !in v
    ensures '\n' !in QuotedLine(k, v)
  {}

  function QuotedLines(keys: seq<string>, m: map<string, string>): (r: seq<string>)
    requires forall k <- keys :: k in m
    ensures |r| == |keys| && forall i :: 0 <= i < |keys| ==> r[i] == QuotedLine(keys[i], m[keys[i]])
  {
    if keys == [] then [] else [QuotedLine(keys[0], m[keys[0]])] + QuotedLines(keys[1..], m)
  }

  lemma {:induction false} LinesOfRender(keys: seq<string>, m: map<string, string>)
    requires forall k <- keys :: k in m && CanonicalKey(k) && '\n' !in m[k]
    ensures Lines(Render(keys, m)) == QuotedLines(keys, m)
  {
    if keys != [] {
      var k, v := keys[0], m[keys[0]];
      LinesOfRender(keys[1..], m);
      var line := QuotedLine(k, v);
      QuotedShape(v);
      assert line[|line| - 1] == '"';
      QuotedPlain(k, v);
      LinesOne(line, Render(keys[1..], m));
    }
  }

  function Pairs(keys: seq<string>, m: map<string, string>): (r: seq<Line>)
    requires forall k <- keys :: k in m
    ensures |r| == |keys| && forall i :: 0 <= i < |keys| ==> r[i] == Pair(keys[i], m[keys[i]])
  {
    if keys == [] then [] else [Pair(keys[0], m[keys[0]])] + Pairs(keys[1..], m)
  }

  lemma ReadRender(keys: seq<string>, m: map<string, string>)
    requires forall k <- keys :: k in m && CanonicalKey(k) && '\n' !in m[k]
    ensures ReadAll(Lines(Render(keys, m))) == Pairs(keys, m)
  {
    LinesOfRender(keys, m);
    var lines := QuotedLines(keys, m);
    forall i | 0 <= i < |lines| ensures ReadAll(lines)[i] == Pairs(keys, m)[i] {
      ReadQuoted(keys[i], m[keys[i]]);
    }
  }

  lemma PairsGive(keys: seq<string>, m: map<string, string>, k: string)
    requires NoRepeats(keys) && (forall x <- keys :: x in m) && Fold(Pairs(keys, m)).Ok?
    ensures k in keys ==> Gives(Fold(Pairs(keys, m)).value, k, m[k])
    ensures k in Fold(Pairs(keys, m)).value ==> k in keys
  {
    var ls := Pairs(keys, m);
    var got := Fold(ls).value;
    if k in keys {
      var i :| 0 <= i < |keys| && keys[i] == k;
      assert LastSets(ls, i, k, m[k]);
      FoldMeaning(ls, k, m[k]);
    }
    if k in got {
      FoldMeaning(ls, k, got[k]);
      var i :| LastSets(ls, i, k, got[k]);
      assert keys[i] == k;
    }
  }

  lemma FoldPairs(keys: seq<string>, m: map<string, string>)
    requires Elements(keys) == m.Keys && NoRepeats(keys) && forall k <- keys :: k in m
    ensures Fold(Pairs(keys, m)) == Ok(m)
  {
    FoldSucceeds(Pairs(keys, m));
    var got := Fold(Pairs(keys, m)).value;
    forall k | k in m ensures k in got && got[k] == m[k] {
      PairsGive(keys, m, k);
      InElements(keys);
    }
    forall k | k in got ensures k in m {
      PairsGive(keys, m, k);
    }
    SameMap(got, m);
  }

  lemma SameMap(a: map<string, string>, b: map<string, string>)
    requires forall k <- b :: k in a && a[k] == b[k]
    requires forall k <- a :: k in b
    ensures a == b
  {}

  lemma InOrderIn(s: set<string>)
    ensures forall k <- InOrder(s) :: k in s
  {}

  /**
   Writing any map as quoted lines, in any order of its keys, and reading it back gives the map, quotes
   stripped once.
   */
  lemma RoundTrip(keys: seq<string>, m: map<string, string>)
    requires NoRepeats(keys) && Elements(keys) == m.Keys
    requires forall k <- m :: CanonicalKey(k) && '\n' !in m[k]
    ensures (forall k <- keys :: k in m) && DotenvOf(Render(keys, m)) == Ok(m)
  {
    InElements(keys);
    ReadRender(keys, m);
    FoldPairs(keys, m);
  }

  // ---------------------------------------------------------------- the child's environment

  function Lookup(m: map<string, string>, k: string): Option<string> {
    if k in m then Some(m[k]) else None
  }

  lemma ElementsAppend(xs: seq<string>, x: string)
    ensures Elements(xs + [x]) == Elements(xs) + {x}
  {}

  /** Set every variable of `layer`, whose names are `keys`, over `base`, one by one. */
  method OverlayKeys(base: map<string, string>, layer: map<string, string>, keys: seq<string>)
    returns (r: map<string, string>)
    requires Elements(keys) == layer.Keys && forall k <- keys :: k in layer
    ensures r == base + layer
  {
    r := base;
    ghost var done: set<string> := {};
    for i := 0 to |keys|
      invariant done == Elements(keys[..i]) && done <= layer.Keys
      invariant r == base + Restrict(layer, done)
    {
      assert keys[..i + 1] == keys[..i] + [keys[i]];
      ElementsAppend(keys[..i], keys[i]);
      RestrictStep(base, layer, done, keys[i]);
      done := done + {keys[i]};
      r := r[keys[i] := layer[keys[i]]];
    }
    assert keys[..|keys|] == keys;
    assert Restrict(layer, layer.Keys) == layer;
  }

  function Restrict(m: map<string, string>, names: set<string>): map<string, string> {
    map k | k in m && k in names :: m[k]
  }

  lemma RestrictStep(base: map<string, string>, layer: map<string, string>, done: set<string>, k: string)
    requires k in layer
    ensures (base + Restrict(layer, done))[k := layer[k]] == base + Restrict(layer, done + {k})
  {}

  method Overlay(base: map<string, string>, layer: map<string, string>) returns (r: map<string, string>)
    ensures r == base + layer
  {
    InOrderIn(layer.Keys);
    r := OverlayKeys(base, layer, InOrder(layer.Keys));
  }

  /** The first of the layers that sets `k`, strongest first. */
  function Strongest(layers: seq<map<string, string>>, k: string): Option<string> {
    if layers == [] then None else if k in layers[0] then Some(layers[0][k]) else Strongest(layers[1..], k)
  }

  /** All layers over one another, strongest first. */
  function Stack(layers: seq<map<string, string>>): map<string, string> {
    if layers == [] then map[] else Stack(layers[1..]) + layers[0]
  }

  lemma {:induction false} StackStrongest(layers: seq<map<string, string>>, k: string)
    ensures Lookup(Stack(layers), k) == Strongest(layers, k)
  {
    if layers != [] {
      StackStrongest(layers[1..], k);
    }
  }

  /** The layers of a child's environment, strongest first. */
  function Layers(inherited: map<string, string>, file: Option<map<string, string>>, table: Option<map<string, string>>,
                  portEnv: Option<string>, port: string, adj: map<string, string>): seq<map<string, string>>
  {
    [adj, map[(if portEnv.Some? then portEnv.value else "PORT") := port],
     if table.Some? then table.value else map[], if file.Some? then file.value else map[], inherited]
  }

  lemma FiveLayers(a: map<string, string>, b: map<string, string>, c: map<string, string>, d: map<string, string>,
                   e: map<string, string>)
    ensures Stack([a, b, c, d, e]) == e + d + c + b + a
  {
    StackCons(a, [b, c, d, e]);
    StackCons(b, [c, d, e]);
    StackCons(c, [d, e]);
    StackCons(d, [e]);
    StackCons(e, []);
    assert Stack([e]) == e;
  }

  lemma StackCons(top: map<string, string>, rest: seq<map<string, string>>)
    ensures Stack([top] + rest) == Stack(rest) + top
  {}

  /**
   The variables a child starts with. By `StackStrongest` each name has the daemon's own value, else the
   port, else the committed table's, else the env file's, else the inherited one.
   */
  method ChildEnv(inherited: map<string, string>, file: Option<map<string, string>>,
                  table: Option<map<string, string>>, portEnv: Option<string>, port: string, adj: map<string, string>)
    returns (r: map<string, string>)
    ensures forall k :: Lookup(r, k) ==
              if k in adj then Some(adj[k])
              else if k == (if portEnv.Some? then portEnv.value else "PORT") then Some(port)
              else if table.Some? && k in table.value then Some(table.value[k])
              else if file.Some? && k in file.value then Some(file.value[k])
              else if k in inherited then Some(inherited[k])
              else None
  {
    r := SetLayers(inherited, file, table, portEnv, port, adj);
    forall k ensures Lookup(r, k) == Wins(inherited, file, table, portEnv, port, adj, k) {
      LayersWin(inherited, file, table, portEnv, port, adj, k);
    }
  }

  /** The value a name ends up with. */
  function Wins(inherited: map<string, string>, file: Option<map<string, string>>, table: Option<map<string, string>>,
                portEnv: Option<string>, port: string, adj: map<string, string>, k: string): Option<string>
  {
    if k in adj then Some(adj[k])
    else if k == (if portEnv.Some? then portEnv.value else "PORT") then Some(port)
    else if table.Some? && k in table.value then Some(table.value[k])
    else if file.Some? && k in file.value then Some(file.value[k])
    else if k in inherited then Some(inherited[k])
    else None
  }

  lemma LayersWin(inherited: map<string, string>, file: Option<map<string, string>>, table: Option<map<string, string>>,
                  portEnv: Option<string>, port: string, adj: map<string, string>, k: string)
    ensures Lookup(Stack(Layers(inherited, file, table, portEnv, port, adj)), k)
         == Wins(inherited, file, table, portEnv, port, adj, k)
  {
    var p := map[(if portEnv.Some? then portEnv.value else "PORT") := port];
    var t := if table.Some? then table.value else map[];
    var f := if file.Some? then file.value else map[];
    FiveLayers(adj, p, t, f, inherited);
    FiveLookups(adj, p, t, f, inherited, k);
  }

  lemma FiveLookups(a: map<string, string>, b: map<string, string>, c: map<string, string>, d: map<string, string>,
                    e: map<string, string>, k: string)
    ensures Lookup(e + d + c + b + a, k) ==
            if k in a then Some(a[k]) else if k in b then Some(b[k]) else if k in c then Some(c[k])
            else if k in d then Some(d[k]) else if k in e then Some(e[k]) else None
  {}

  method SetLayers(inherited: map<string, string>, file: Option<map<string, string>>,
                   table: Option<map<string, string>>, portEnv: Option<string>, port: string, adj: map<string, string>)
    returns (r: map<string, string>)
    ensures r == Stack(Layers(inherited, file, table, portEnv, port, adj))
  {
    r := inherited;
    if file.Some? {
      r := Overlay(r, file.value);
    }
    ghost var f := if file.Some? then file.value else map[];
    assert r == inherited + f;
    if table.Some? {
      r := Overlay(r, table.value);
    }
    ghost var t := if table.Some? then table.value else map[];
    assert r == inherited + f + t;
    var portName := if portEnv.Some? then portEnv.value else "PORT";
    r := r[portName := port];
    assert r == inherited + f + t + map[portName := port];
    r := Overlay(r, adj);
    FiveLayers(adj, map[portName := port], t, f, inherited);
  }

  /**
   Whatever files, tables and the inherited environment say, and even as the port's name, the daemon's own
   variables win.
   */
  lemma AdjWins(inherited: map<string, string>, file: Option<map<string, string>>, table: Option<map<string, string>>,
                portEnv: Option<string>, port: string, key: string, http: Option<nat>, https: Option<nat>, v: AdjVar)
    requires v in AdjEnv(key, http, https)
    ensures Lookup(Stack(Layers(inherited, file, table, portEnv, port, AdjLayer(key, http, https))), VarName(v))
         == Some(AdjEnv(key, http, https)[v])
  {
    StackStrongest(Layers(inherited, file, table, portEnv, port, AdjLayer(key, http, https)), VarName(v));
  }
}
