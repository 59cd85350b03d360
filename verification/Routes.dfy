/**
 Per-purpose model routes: the override list `purpose=api|harness|local[:model]`, separated by commas
 or semicolons, and what the resulting configuration routes where.
*/
module Routes {
  import opened Wrappers
  import opened Text

  datatype Backend = Api | Harness | Local

  datatype Override = Override(backend: Backend, model: Option<string>)

  // ------------------------------------------------------------------
  // Text

  /** Unicode White_Space. */
  predicate IsSpace(c: char) {
    var n := c as int;
    || 9 <= n <= 13 || n == 0x20 || n == 0x85 || n == 0xA0 || n == 0x1680 || 0x2000 <= n <= 0x200A
    || n == 0x2028 || n == 0x2029 || n == 0x202F || n == 0x205F || n == 0x3000
  }

  function TrimStart(s: string): string {
    if s != "" && IsSpace(s[0]) then TrimStart(s[1..]) else s
  }

  function TrimEnd(s: string): string {
    if s != "" && IsSpace(s[|s| - 1]) then TrimEnd(s[..|s| - 1]) else s
  }

  function Trim(s: string): string {
    TrimEnd(TrimStart(s))
  }

  predicate Trimmed(s: string) {
    s != "" ==> !IsSpace(s[0]) && !IsSpace(s[|s| - 1])
  }

  lemma TrimmedIsFixed(s: string)
    requires Trimmed(s)
    ensures Trim(s) == s
  {
  }

  function LowerChar(c: char): char {
    if 'A' <= c <= 'Z' then (c as int + 32) as char else c
  }

  function Lower(s: string): string {
    seq(|s|, i requires 0 <= i < |s| => LowerChar(s[i]))
  }

  predicate IsSeparator(c: char) {
    c == ',' || c == ';'
  }

  /** Pieces of a text that starts with `c`, given those of the rest. */
  function Prepend(c: char, rest: seq<string>): (r: seq<string>)
    requires |rest| > 0
    ensures |r| > 0
  {
    if IsSeparator(c) then [""] + rest else [[c] + rest[0]] + rest[1..]
  }

  /** The pieces between separators; always at least one. */
  function Pieces(s: string): (r: seq<string>)
    ensures |r| > 0
  {
    if s == "" then [""] else Prepend(s[0], Pieces(s[1..]))
  }

  predicate NoSeparator(s: string) {
    forall i | 0 <= i < |s| :: !IsSeparator(s[i])
  }

  lemma PrependConcat(c: char, a: seq<string>, b: seq<string>)
    requires |a| > 0
    ensures Prepend(c, a + b) == Prepend(c, a) + b
  {
    assert (a + b)[0] == a[0] && (a + b)[1..] == a[1..] + b;
  }

  lemma {:induction false} PiecesConcat(x: string, c: char, y: string)
    requires IsSeparator(c)
    ensures Pieces(x + [c] + y) == Pieces(x) + Pieces(y)
  {
    var whole := x + [c] + y;
    if x == "" {
      assert whole[1..] == y;
    } else {
      assert whole[0] == x[0] && whole[1..] == x[1..] + [c] + y;
      PiecesConcat(x[1..], c, y);
      PrependConcat(x[0], Pieces(x[1..]), Pieces(y));
    }
  }

  lemma {:induction false} SinglePiece(s: string)
    requires NoSeparator(s)
    ensures Pieces(s) == [s]
  {
    if s != "" {
      assert forall i | 0 <= i < |s[1..]| :: s[1..][i] == s[i + 1];
      SinglePiece(s[1..]);
      assert [s[0]] + s[1..] == s;
    }
  }

  /** Split at the first `c`. */
  function SplitOnce(s: string, c: char): Option<(string, string)> {
    if s == "" then None
    else if s[0] == c then Some(("", s[1..]))
    else
      match SplitOnce(s[1..], c)
      case None => None
      case Some((a, b)) => Some(([s[0]] + a, b))
  }

  lemma {:induction false} SplitOnceAt(a: string, c: char, b: string)
    requires Lacks(a, c)
    ensures SplitOnce(a + [c] + b, c) == Some((a, b))
  {
    var s := a + [c] + b;
    if a == "" {
      assert s[1..] == b;
    } else {
      assert forall i | 0 <= i < |a[1..]| :: a[1..][i] == a[i + 1];
      SplitOnceAt(a[1..], c, b);
      assert s[0] == a[0] && s[1..] == a[1..] + [c] + b;
      assert [a[0]] + a[1..] == a;
    }
  }

  lemma {:induction false} SplitOnceNone(s: string, c: char)
    requires Lacks(s, c)
    ensures SplitOnce(s, c) == None
  {
    if s != "" {
      assert forall i | 0 <= i < |s[1..]| :: s[1..][i] == s[i + 1];
      SplitOnceNone(s[1..], c);
    }
  }

  // ------------------------------------------------------------------
  // Parsing

  function ParseBackend(raw: string): Option<Backend> {
    var word := Lower(Trim(raw));
    if word == "api" then Some(Api)
    else if word == "harness" then Some(Harness)
    else if word == "local" then Some(Local)
    else None
  }

  function NonEmpty(value: Option<string>): Option<string> {
    match value
    case None => None
    case Some(raw) => if Trim(raw) == "" then None else Some(Trim(raw))
  }

  /** What one piece contributes, if it is valid. */
  function Entry(raw: string): Option<(string, Override)> {
    var entry := Trim(raw);
    match SplitOnce(entry, '=')
    case None => None
    case Some((rawKey, rest)) =>
      var (rawBackend, rawModel) :=
        match SplitOnce(rest, ':') case None => (rest, None) case Some((backend, model)) => (backend, Some(model));
      match ParseBackend(rawBackend)
      case None => None
      case Some(backend) =>
        if Trim(rawKey) == "" then None else Some((Trim(rawKey), Override(backend, NonEmpty(rawModel))))
  }

  /** Later entries of a purpose win. */
  function Collect(pieces: seq<string>): map<string, Override> {
    if pieces == [] then map[]
    else
      match Entry(pieces[|pieces| - 1])
      case None => Collect(pieces[..|pieces| - 1])
      case Some((key, route)) => Collect(pieces[..|pieces| - 1])[key := route]
  }

  function Parse(value: string): map<string, Override> {
    Collect(Pieces(value))
  }

  /** Split at the separators and put each valid piece's route, later pieces over earlier ones. */
  method ParseRouteOverrides(value: string) returns (overrides: map<string, Override>)
    ensures overrides == Parse(value)
  {
    overrides := map[];
    var pieces := Pieces(value);
    for i := 0 to |pieces|
      invariant overrides == Collect(pieces[..i])
    {
      assert pieces[..i + 1][..i] == pieces[..i];
      var entry := Trim(pieces[i]);
      if entry == "" {
        continue;
      }
      var halves := SplitOnce(entry, '=');
      if halves.None? {
        continue;
      }
      var key := Trim(halves.value.0);
      var split := SplitOnce(halves.value.1, ':');
      var rawBackend := if split.Some? then split.value.0 else halves.value.1;
      var rawModel := if split.Some? then Some(split.value.1) else None;
      var backend := ParseBackend(rawBackend);
      if backend.None? || key == "" {
        continue;
      }
      overrides := overrides[key := Override(backend.value, NonEmpty(rawModel))];
    }
    assert pieces[..|pieces|] == pieces;
  }

  lemma {:induction false} CollectConcat(a: seq<string>, b: seq<string>)
    ensures Collect(a + b) == Collect(a) + Collect(b)
  {
    if b == [] {
      assert a + b == a;
    } else {
      assert (a + b)[..|a + b| - 1] == a + b[..|b| - 1];
      CollectConcat(a, b[..|b| - 1]);
    }
  }

  /** Parsing a list of two parts is parsing each, the second overriding the first. */
  lemma ParseIsModular(x: string, y: string, c: char)
    requires IsSeparator(c)
    ensures Parse(x + [c] + y) == Parse(x) + Parse(y)
  {
    PiecesConcat(x, c, y);
    CollectConcat(Pieces(x), Pieces(y));
  }

  /** So an invalid entry never affects the others. */
  lemma InvalidEntryIsIgnored(x: string, bad: string, y: string)
    requires NoSeparator(bad) && Entry(bad).None?
    ensures Parse(x + "," + bad + "," + y) == Parse(x + "," + y)
  {
    ParseIsModular(x + "," + bad, y, ',');
    ParseIsModular(x, bad, ',');
    ParseIsModular(x, y, ',');
    ParseSingle(bad);
  }

  /** A text without separators is one entry. */
  lemma ParseSingle(text: string)
    requires NoSeparator(text)
    ensures Parse(text) == match Entry(text) case None => map[] case Some((key, route)) => map[key := route]
  {
    SinglePiece(text);
    assert [text][..|[text]| - 1] == [];
  }

  // ------------------------------------------------------------------
  // Printing

  function Word(backend: Backend): string {
    match backend
    case Api => "api"
    case Harness => "harness"
    case Local => "local"
  }

  function ModelSuffix(model: Option<string>): string {
    match model
    case None => ""
    case Some(m) => ":" + m
  }

  function EntryText(key: string, route: Override): string {
    key + "=" + (Word(route.backend) + ModelSuffix(route.model))
  }

  /** A route that can be written down: its key and model survive trimming and splitting. */
  predicate WellFormed(key: string, route: Override) {
    && key != "" && Trimmed(key) && NoSeparator(key) && Lacks(key, '=')
    && (route.model.Some? ==> route.model.value != "" && Trimmed(route.model.value) && NoSeparator(route.model.value))
  }

  lemma WordRoundTrip(backend: Backend)
    ensures ParseBackend(Word(backend)) == Some(backend)
    ensures Lacks(Word(backend), ':') && NoSeparator(Word(backend)) && Word(backend) != "" && Trimmed(Word(backend))
  {
    var word := Word(backend);
    TrimmedIsFixed(word);
    assert Lower(word) == word;
  }

  lemma EntryTextShape(key: string, route: Override)
    requires WellFormed(key, route)
    ensures NoSeparator(EntryText(key, route)) && Trimmed(EntryText(key, route))
  {
    WordRoundTrip(route.backend);
    var text := EntryText(key, route);
    assert text[0] == key[0];
    var tail := Word(route.backend) + ModelSuffix(route.model);
    assert text[|text| - 1] == tail[|tail| - 1];
    if route.model.Some? {
      var m := route.model.value;
      assert tail[|tail| - 1] == m[|m| - 1];
    }
  }

  lemma EntryRoundTrip(key: string, route: Override)
    requires WellFormed(key, route)
    ensures Entry(EntryText(key, route)) == Some((key, route))
  {
    EntryTextShape(key, route);
    WordRoundTrip(route.backend);
    var tail := Word(route.backend) + ModelSuffix(route.model);
    TrimmedIsFixed(EntryText(key, route));
    assert EntryText(key, route) == key + ['='] + tail;
    SplitOnceAt(key, '=', tail);
    TrimmedIsFixed(key);
    match route.model
    case None =>
      assert tail == Word(route.backend);
      SplitOnceNone(tail, ':');
    case Some(m) =>
      assert tail == Word(route.backend) + [':'] + m;
      SplitOnceAt(Word(route.backend), ':', m);
      TrimmedIsFixed(m);
  }

  /** A listing of a map: every key once, in any order. */
  ghost predicate Lists(routes: map<string, Override>, keys: seq<string>) {
    (forall k :: k in routes <==> k in keys) && (forall i, j | 0 <= i < j < |keys| :: keys[i] != keys[j])
  }

  function Print(routes: map<string, Override>, keys: seq<string>): string
    requires forall k | k in keys :: k in routes
  {
    if keys == [] then ""
    else if |keys| == 1 then EntryText(keys[0], routes[keys[0]])
    else
      var last := keys[|keys| - 1];
      Print(routes, keys[..|keys| - 1]) + [','] + EntryText(last, routes[last])
  }

  function Restrict(routes: map<string, Override>, keys: seq<string>): map<string, Override>
    requires forall k | k in keys :: k in routes
  {
    map k | k in keys :: routes[k]
  }

  lemma ParseOne(key: string, route: Override)
    requires WellFormed(key, route)
    ensures Parse(EntryText(key, route)) == map[key := route]
  {
    EntryTextShape(key, route);
    EntryRoundTrip(key, route);
    ParseSingle(EntryText(key, route));
  }

  lemma RestrictAppend(routes: map<string, Override>, front: seq<string>, last: string)
    requires forall k | k in front + [last] :: k in routes
    requires last in routes && forall k | k in front :: k in routes
    ensures Restrict(routes, front + [last]) == Restrict(routes, front) + map[last := routes[last]]
  {
  }

  lemma {:induction false} ParsePrinted(routes: map<string, Override>, keys: seq<string>)
    requires forall k | k in keys :: k in routes && WellFormed(k, routes[k])
    ensures Parse(Print(routes, keys)) == Restrict(routes, keys)
  {
    if keys == [] {
      ParseSingle("");
      assert Entry("").None?;
    } else {
      var front, last := keys[..|keys| - 1], keys[|keys| - 1];
      assert keys == front + [last];
      assert last in keys && forall k | k in front :: k in keys;
      RestrictAppend(routes, front, last);
      ParseOne(last, routes[last]);
      if |keys| == 1 {
        assert front == [];
      } else {
        ParsePrinted(routes, front);
        ParseIsModular(Print(routes, front), EntryText(last, routes[last]), ',');
      }
    }
  }

  /** Printing a map of well-formed routes, in any order, and parsing it gives the map back. */
  lemma PrintParseRoundTrip(routes: map<string, Override>, keys: seq<string>)
    requires Lists(routes, keys) && forall k | k in routes :: WellFormed(k, routes[k])
    ensures Parse(Print(routes, keys)) == routes
  {
    ParsePrinted(routes, keys);
    assert Restrict(routes, keys) == routes;
  }

  // ------------------------------------------------------------------
  // Routing

  datatype Config = Config(defaultBackend: Backend, overrides: map<string, Override>, apiModel: Option<string>,
                           harnessModel: Option<string>, localModel: Option<string>, defaultModel: Option<string>)

  datatype Route = Route(backend: Backend, model: Option<string>)

  function OrElse(a: Option<string>, b: Option<string>): Option<string> {
    if a.Some? then a else b
  }

  function RouteFor(config: Config, purpose: string): Route {
    var found := purpose in config.overrides;
    var backend := if found then config.overrides[purpose].backend else config.defaultBackend;
    var own := if found then config.overrides[purpose].model else None;
    var byBackend :=
      match backend
      case Api => config.apiModel
      case Harness => config.harnessModel
      case Local => config.localModel;
    Route(backend, OrElse(own, OrElse(byBackend, config.defaultModel)))
  }

  /** The flag the configuration computes from its parts. */
  predicate HarnessEnabled(config: Config) {
    config.defaultBackend.Harness? || exists k | k in config.overrides :: config.overrides[k].backend.Harness?
  }

  lemma {:induction false} FreshPurpose(keys: set<string>) returns (purpose: string)
    ensures forall k | k in keys :: |k| < |purpose|
  {
    if keys == {} {
      purpose := "";
    } else {
      var k :| k in keys;
      var other := FreshPurpose(keys - {k});
      purpose := other + k + "x";
    }
  }

  /** The flag holds exactly when some purpose routes to the harness. */
  lemma HarnessEnabledIff(config: Config)
    ensures HarnessEnabled(config) <==> exists purpose: string :: RouteFor(config, purpose).backend.Harness?
  {
    if config.defaultBackend.Harness? {
      var purpose := FreshPurpose(config.overrides.Keys);
      assert purpose !in config.overrides;
      assert RouteFor(config, purpose).backend.Harness?;
    } else if k :| k in config.overrides && config.overrides[k].backend.Harness? {
      assert RouteFor(config, k).backend.Harness?;
    }
  }
}
