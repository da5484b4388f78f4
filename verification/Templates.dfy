/** Python's string.Template.safe_substitute, as app/core/profile_loader.py uses it. */
module Templates {

  type Text = seq<char>

  /** A parsed template: plain characters, `$$`, and `$name` or `${name}` with the text it was written as. */
  datatype Piece = Plain(c: char) | Escape | Ref(name: Text, written: Text)

  predicate Alpha(c: char) {
    c == '_' || 'a' <= c <= 'z' || 'A' <= c <= 'Z'
  }

  predicate Alnum(c: char) {
    Alpha(c) || '0' <= c <= '9'
  }

  function Run(s: Text): (n: nat)
    ensures n <= |s|
  {
    if s == [] || !Alnum(s[0]) then 0 else 1 + Run(s[1..])
  }

  /** Length of the identifier that s starts with, zero if there is none. */
  function Ident(s: Text): (n: nat)
    ensures n <= |s|
  {
    if s == [] || !Alpha(s[0]) then 0 else 1 + Run(s[1..])
  }

  /** The piece s starts with and how many characters it takes. */
  function Next(s: Text): (r: (Piece, nat))
    requires s != []
    ensures 0 < r.1 <= |s|
    ensures Written(r.0) == s[..r.1]
  {
    var n := Ident(s[1..]);
    if s[0] != '$' then (Plain(s[0]), 1)
    else if |s| > 1 && s[1] == '$' then (Escape, 2)
    else if n > 0 then (Ref(s[1..1 + n], s[..1 + n]), 1 + n)
    else if |s| > 2 && s[1] == '{' then
      var b := Ident(s[2..]);
      if b > 0 && 2 + b < |s| && s[2 + b] == '}' then (Ref(s[2..2 + b], s[..3 + b]), 3 + b) else (Plain('$'), 1)
    else (Plain('$'), 1)
  }

  function Parse(s: Text): seq<Piece> {
    if s == [] then []
    else [Next(s).0] + Parse(s[Next(s).1..])
  }

  function Written(p: Piece): Text {
    match p
    case Plain(c) => [c]
    case Escape => ['$', '$']
    case Ref(_, written) => written
  }

  function Unparse(ps: seq<Piece>): Text {
    if ps == [] then [] else Written(ps[0]) + Unparse(ps[1..])
  }

  /** Parsing loses nothing. */
  lemma {:induction false} UnparseParse(s: Text)
    ensures Unparse(Parse(s)) == s
  {
    if s != [] {
      var k := Next(s).1;
      UnparseParse(s[k..]);
      assert s == s[..k] + s[k..];
      assert Parse(s)[0] == Next(s).0 && Parse(s)[1..] == Parse(s[k..]);
    }
  }

  function Value(p: Piece, env: map<Text, Text>): Text {
    match p
    case Plain(c) => [c]
    case Escape => ['$']
    case Ref(name, written) => if name in env then env[name] else written
  }

  function Fill(ps: seq<Piece>, env: map<Text, Text>): Text {
    if ps == [] then [] else Value(ps[0], env) + Fill(ps[1..], env)
  }

  function Substitute(s: Text, env: map<Text, Text>): Text {
    Fill(Parse(s), env)
  }

  /** The variables a template refers to. */
  function Refs(s: Text): set<Text> {
    set k | 0 <= k < |Parse(s)| && Parse(s)[k].Ref? :: Parse(s)[k].name
  }

  predicate Agree(a: map<Text, Text>, b: map<Text, Text>, names: set<Text>) {
    forall x :: x in names ==> (x in a <==> x in b) && (x in a ==> a[x] == b[x])
  }

  lemma {:induction false} FillAgrees(ps: seq<Piece>, a: map<Text, Text>, b: map<Text, Text>, names: set<Text>)
    requires Agree(a, b, names) && forall k :: 0 <= k < |ps| && ps[k].Ref? ==> ps[k].name in names
    ensures Fill(ps, a) == Fill(ps, b)
  {
    if ps != [] {
      FillAgrees(ps[1..], a, b, names);
    }
  }

  /** The result depends only on the variables referred to. */
  lemma SubstituteAgrees(s: Text, a: map<Text, Text>, b: map<Text, Text>)
    requires Agree(a, b, Refs(s))
    ensures Substitute(s, a) == Substitute(s, b)
  {
    FillAgrees(Parse(s), a, b, Refs(s));
  }

  /** Each variable's value is part of the result. */
  lemma {:induction false} FillLong(ps: seq<Piece>, env: map<Text, Text>, i: nat)
    requires i < |ps|
    ensures |Fill(ps, env)| >= |Value(ps[i], env)|
  {
    if i > 0 { FillLong(ps[1..], env, i - 1); }
  }

  lemma SubstituteLong(s: Text, env: map<Text, Text>, x: Text)
    requires x in Refs(s) && x in env
    ensures |Substitute(s, env)| >= |env[x]|
  {
    var k :| 0 <= k < |Parse(s)| && Parse(s)[k].Ref? && Parse(s)[k].name == x;
    FillLong(Parse(s), env, k);
  }

  // What the syntax means

  predicate Identifier(s: Text) {
    s != [] && Alpha(s[0]) && forall i :: 0 <= i < |s| ==> Alnum(s[i])
  }

  lemma {:induction false} RunIs(name: Text, rest: Text)
    requires (forall i :: 0 <= i < |name| ==> Alnum(name[i])) && (rest != [] ==> !Alnum(rest[0]))
    ensures Run(name + rest) == |name|
  {
    if name == [] {
      assert name + rest == rest;
    } else {
      assert (name + rest)[1..] == name[1..] + rest;
      RunIs(name[1..], rest);
    }
  }

  lemma IdentIs(name: Text, rest: Text)
    requires Identifier(name) && (rest != [] ==> !Alnum(rest[0]))
    ensures Ident(name + rest) == |name|
  {
    assert (name + rest)[1..] == name[1..] + rest;
    RunIs(name[1..], rest);
  }

  lemma SubstituteNext(s: Text, env: map<Text, Text>)
    requires s != []
    ensures Substitute(s, env) == Value(Next(s).0, env) + Substitute(s[Next(s).1..], env)
  {
    var ps := Parse(s);
    assert ps[0] == Next(s).0 && ps[1..] == Parse(s[Next(s).1..]);
  }

  /** Text without a dollar sign stays as it is. */
  lemma {:induction false} SubstitutePlain(s: Text, env: map<Text, Text>)
    requires '$' !in s
    ensures Substitute(s, env) == s
  {
    if s != [] {
      SubstituteNext(s, env);
      SubstitutePlain(s[1..], env);
    }
  }

  /** `$name` is replaced by its value when it has one, and kept as written otherwise. */
  lemma SubstituteNamed(name: Text, rest: Text, env: map<Text, Text>)
    requires Identifier(name) && (rest != [] ==> !Alnum(rest[0]))
    ensures Substitute(['$'] + name + rest, env)
            == (if name in env then env[name] else ['$'] + name) + Substitute(rest, env)
  {
    var s := ['$'] + name + rest;
    assert s[1..] == name + rest && s[1..1 + |name|] == name && s[..1 + |name|] == ['$'] + name
           && s[1 + |name|..] == rest;
    IdentIs(name, rest);
    assert s[1] == name[0];
    SubstituteNext(s, env);
  }

  lemma NamedRef(name: Text)
    requires Identifier(name)
    ensures name in Refs(['$'] + name)
  {
    var s := ['$'] + name;
    assert s[1..] == name + [] && s[1..1 + |name|] == name;
    IdentIs(name, []);
    assert s[1] == name[0];
    assert Parse(s)[0] == Next(s).0;
  }

  /** `${name}` likewise, whatever follows. */
  lemma SubstituteBraced(name: Text, rest: Text, env: map<Text, Text>)
    requires Identifier(name)
    ensures Substitute(['$', '{'] + name + ['}'] + rest, env)
            == (if name in env then env[name] else ['$', '{'] + name + ['}']) + Substitute(rest, env)
  {
    var s := ['$', '{'] + name + ['}'] + rest;
    var n := |name|;
    assert s[1] == '{' && s[2..] == name + (['}'] + rest) && s[2 + n] == '}';
    assert s[2..2 + n] == name && s[..3 + n] == ['$', '{'] + name + ['}'] && s[3 + n..] == rest;
    IdentIs(name, ['}'] + rest);
    assert s[1..][0] == '{';
    SubstituteNext(s, env);
  }
}
