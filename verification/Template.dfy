/** Message templates: `{{ name }}` placeholders and their substitution. */
module Template {
  import opened Wrappers

  /** `\s` of a regular expression over text. */
  predicate IsSpace(c: char) {
    var n := c as int;
    9 <= n <= 13 || 28 <= n <= 32 || n == 0x85 || n == 0xA0 || n == 0x1680 || 0x2000 <= n <= 0x200A
    || n == 0x2028 || n == 0x2029 || n == 0x202F || n == 0x205F || n == 0x3000
  }

  /** `[a-zA-Z0-9_]` */
  predicate IsWord(c: char) {
    'a' <= c <= 'z' || 'A' <= c <= 'Z' || '0' <= c <= '9' || c == '_'
  }

  /** Names are made of the characters from `0` to `z` without the marks between them. */
  lemma NameCharacters(c: char)
    ensures IsWord(c) <==> 48 <= c as int <= 122 && c !in ":;<=>?@[\\]^`"
  {
  }

  /** The blanks, one by one. */
  lemma Blanks(c: char)
    ensures IsSpace(c) <==>
              || c in "\t\n\U{0b}\U{0c}\r\U{1c}\U{1d}\U{1e}\U{1f} \U{85}\U{a0}\U{1680}"
              || c in "\U{2000}\U{2001}\U{2002}\U{2003}\U{2004}\U{2005}\U{2006}\U{2007}\U{2008}\U{2009}\U{200a}"
              || c in "\U{2028}\U{2029}\U{202f}\U{205f}\U{3000}"
  {
  }

  ghost predicate AllSpace(s: string) {
    forall c | c in s :: IsSpace(c)
  }

  ghost predicate IsName(s: string) {
    s != "" && forall c | c in s :: IsWord(c)
  }

  /** The placeholder pattern, read as a set of strings. */
  ghost predicate HasShape(raw: string, pre: string, name: string, post: string) {
    AllSpace(pre) && IsName(name) && AllSpace(post) && raw == "{{" + pre + name + post + "}}"
  }

  ghost predicate IsPlaceholder(raw: string, name: string) {
    exists pre, post :: HasShape(raw, pre, name, post)
  }

  /** The longest run of one kind of character at the start of a text, and what follows it. */
  datatype Run = Run(taken: string, rest: string)

  function Spaces(s: string): (r: Run)
    ensures s == r.taken + r.rest && AllSpace(r.taken)
    ensures r.rest != "" ==> !IsSpace(r.rest[0])
  {
    if s == "" || !IsSpace(s[0]) then Run("", s)
    else
      var r := Spaces(s[1..]);
      Run([s[0]] + r.taken, r.rest)
  }

  function Word(s: string): (r: Run)
    ensures s == r.taken + r.rest && forall c | c in r.taken :: IsWord(c)
    ensures r.rest != "" ==> !IsWord(r.rest[0])
  {
    if s == "" || !IsWord(s[0]) then Run("", s)
    else
      var r := Word(s[1..]);
      Run([s[0]] + r.taken, r.rest)
  }

  /** A match at the start of a text: what it covers, the captured name, and the rest of the text. */
  datatype Match = Match(raw: string, name: string, rest: string)

  /** The pattern engine at one position. Spaces, word characters and braces are disjoint,
      so taking each run whole is the only way to match. */
  function MatchHere(s: string): (r: Option<Match>)
    ensures r.Some? ==> s == r.value.raw + r.value.rest && IsPlaceholder(r.value.raw, r.value.name)
  {
    if !("{{" <= s) then None
    else
      var pre := Spaces(s[2..]);
      var name := Word(pre.rest);
      var post := Spaces(name.rest);
      if name.taken == "" || !("}}" <= post.rest) then None
      else
        var raw := "{{" + pre.taken + name.taken + post.taken + "}}";
        assert HasShape(raw, pre.taken, name.taken, post.taken);
        assert s == raw + post.rest[2..] by {
          Regroup("{{", pre.taken, name.taken, post.taken, "}}", post.rest[2..]);
          assert s == "{{" + s[2..] && post.rest == "}}" + post.rest[2..];
        }
        Some(Match(raw, name.taken, post.rest[2..]))
  }

  lemma Regroup(a: string, b: string, c: string, d: string, e: string, rest: string)
    ensures a + (b + (c + (d + (e + rest)))) == (a + b + c + d + e) + rest
  {
    assert d + (e + rest) == (d + e) + rest;
    assert c + ((d + e) + rest) == (c + d + e) + rest;
    assert b + ((c + d + e) + rest) == (b + c + d + e) + rest;
    assert a + ((b + c + d + e) + rest) == (a + b + c + d + e) + rest;
  }

  lemma {:induction false} SpacesEnd(pre: string, rest: string)
    requires rest != "" && !IsSpace(rest[0]) && AllSpace(pre)
    ensures Spaces(pre + rest) == Run(pre, rest)
  {
    if pre == "" {
      assert pre + rest == rest;
    } else {
      assert pre[0] in pre && (pre + rest)[1..] == pre[1..] + rest;
      SpacesEnd(pre[1..], rest);
    }
  }

  lemma {:induction false} WordEnds(name: string, rest: string)
    requires rest != "" && !IsWord(rest[0]) && forall c | c in name :: IsWord(c)
    ensures Word(name + rest) == Run(name, rest)
  {
    if name == "" {
      assert name + rest == rest;
    } else {
      assert name[0] in name && (name + rest)[1..] == name[1..] + rest;
      WordEnds(name[1..], rest);
    }
  }

  lemma MatchIsComplete(raw: string, name: string, rest: string)
    requires IsPlaceholder(raw, name)
    ensures MatchHere(raw + rest) == Some(Match(raw, name, rest))
  {
    var pre, post :| HasShape(raw, pre, name, post);
    var close := "}}" + rest;
    var tail := post + close;
    var s := raw + rest;
    assert s[2..] == pre + (name + tail) && "{{" <= s by {
      Regroup("{{", pre, name, post, "}}", rest);
      assert s == "{{" + (pre + (name + tail));
    }
    assert name[0] in name;
    SpacesEnd(pre, name + tail);
    assert tail[0] == '}' || (tail[0] == post[0] && post[0] in post);
    WordEnds(name, tail);
    SpacesEnd(post, close);
    assert "}}" <= close && close[2..] == rest;
  }

  // ----- The declarative meaning: a body is literals and placeholders -----

  datatype Piece = Literal(c: char) | Placeholder(raw: string, name: string)

  ghost function Print(pieces: seq<Piece>): string {
    if pieces == [] then ""
    else (if pieces[0].Literal? then [pieces[0].c] else pieces[0].raw) + Print(pieces[1..])
  }

  ghost predicate StartsPlaceholder(s: string) {
    exists raw, name, rest :: IsPlaceholder(raw, name) && s == raw + rest
  }

  /** Leftmost splitting: placeholders have the shape, and no placeholder starts where a literal stands. */
  ghost predicate Leftmost(pieces: seq<Piece>) {
    pieces != [] ==>
      && (match pieces[0]
          case Literal(_) => !StartsPlaceholder(Print(pieces))
          case Placeholder(raw, name) => IsPlaceholder(raw, name))
      && Leftmost(pieces[1..])
  }

  ghost function Scan(body: string): seq<Piece>
    decreases |body|
  {
    if body == "" then []
    else match MatchHere(body)
         case None => [Literal(body[0])] + Scan(body[1..])
         case Some(m) =>
           [Placeholder(m.raw, m.name)] + Scan(m.rest)
  }

  /** Every body has a leftmost splitting that prints back to it. */
  lemma {:induction false} ScanSplits(body: string)
    ensures Print(Scan(body)) == body && Leftmost(Scan(body))
    decreases |body|
  {
    if body != "" {
      match MatchHere(body) {
        case None =>
          ScanSplits(body[1..]);
          assert [body[0]] + body[1..] == body;
          if StartsPlaceholder(body) {
            var raw, name, rest :| IsPlaceholder(raw, name) && body == raw + rest;
            MatchIsComplete(raw, name, rest);
          }
        case Some(m) =>
          ScanSplits(m.rest);
      }
    }
  }

  lemma LiteralStays(c: char, rest: string)
    requires !StartsPlaceholder([c] + rest)
    ensures Scan([c] + rest) == [Literal(c)] + Scan(rest)
  {
    var body := [c] + rest;
    assert body[1..] == rest;
    assert MatchHere(body).None?;
  }

  lemma PlaceholderStays(raw: string, name: string, rest: string)
    requires IsPlaceholder(raw, name)
    ensures Scan(raw + rest) == [Placeholder(raw, name)] + Scan(rest)
  {
    MatchIsComplete(raw, name, rest);
  }

  /** ... and no other. */
  lemma {:induction false} SplitIsUnique(pieces: seq<Piece>)
    requires Leftmost(pieces)
    ensures Scan(Print(pieces)) == pieces
  {
    if pieces != [] {
      SplitIsUnique(pieces[1..]);
      match pieces[0] {
        case Literal(c) => LiteralStays(c, Print(pieces[1..]));
        case Placeholder(raw, name) => PlaceholderStays(raw, name, Print(pieces[1..]));
      }
      assert pieces == [pieces[0]] + pieces[1..];
    }
  }

  // ----- Rendering -----

  datatype RenderError = TemplateVariableMissing(name: string)

  /** `re.sub` with the replacement callback: the scan goes on after the match, over the body only. */
  function Substitute(body: string, variables: map<string, string>): Result<string, RenderError>
    decreases |body|
  {
    if body == "" then Ok("")
    else match MatchHere(body)
         case None =>
           (match Substitute(body[1..], variables)
            case Ok(text) => Ok([body[0]] + text)
            case Err(e) => Err(e))
         case Some(m) =>
           if m.name !in variables then Err(TemplateVariableMissing(m.name))
           else
             match Substitute(m.rest, variables)
             case Ok(text) => Ok(variables[m.name] + text)
             case Err(e) => Err(e)
  }

  function RenderTemplateText(body: string, variables: Option<map<string, string>>): Result<string, RenderError> {
    Substitute(body, if variables.Some? then variables.value else map[])
  }

  /** Names of placeholders in order. */
  ghost function Names(pieces: seq<Piece>): seq<string> {
    if pieces == [] then []
    else (if pieces[0].Placeholder? then [pieces[0].name] else []) + Names(pieces[1..])
  }

  /** The pieces with every placeholder replaced by its value, once. */
  ghost function Fill(pieces: seq<Piece>, variables: map<string, string>): string
    requires forall n | n in Names(pieces) :: n in variables
  {
    if pieces == [] then ""
    else
      (match pieces[0]
       case Literal(c) => [c]
       case Placeholder(_, name) => assert Names(pieces)[0] == name; variables[name])
      + Fill(pieces[1..], variables)
  }

  /** `name` is the first of `names` without a value. */
  ghost predicate FirstMissing(names: seq<string>, variables: map<string, string>, name: string) {
    exists i | 0 <= i < |names| :: names[i] == name && name !in variables && AllGiven(names[..i], variables)
  }

  ghost predicate AllGiven(names: seq<string>, variables: map<string, string>) {
    forall n | n in names :: n in variables
  }

  lemma FirstMissingHere(name: string, rest: seq<string>, variables: map<string, string>)
    ensures name !in variables ==> FirstMissing([name] + rest, variables, name)
    ensures name in variables ==>
              forall n | FirstMissing(rest, variables, n) :: FirstMissing([name] + rest, variables, n)
  {
    var names := [name] + rest;
    assert names[0] == name && names[..0] == [];
    if name in variables {
      forall n | FirstMissing(rest, variables, n)
        ensures FirstMissing(names, variables, n)
      {
        var i :| 0 <= i < |rest| && rest[i] == n && n !in variables && AllGiven(rest[..i], variables);
        assert names[i + 1] == n && names[..i + 1] == [name] + rest[..i];
      }
    }
  }

  /** Rendering succeeds exactly when every placeholder has a value, and then fills the splitting in place;
      otherwise it names the first placeholder without a value. */
  lemma {:induction false} RenderMeaning(body: string, variables: map<string, string>)
    ensures Substitute(body, variables).Ok? <==> forall n | n in Names(Scan(body)) :: n in variables
    ensures Substitute(body, variables).Ok? ==>
              Substitute(body, variables).value == Fill(Scan(body), variables)
    ensures Substitute(body, variables).Err? ==>
              FirstMissing(Names(Scan(body)), variables, Substitute(body, variables).error.name)
    decreases |body|
  {
    hide IsPlaceholder;
    if body != "" {
      var pieces := Scan(body);
      match MatchHere(body) {
        case None =>
          RenderMeaning(body[1..], variables);
          assert pieces[1..] == Scan(body[1..]) && Names(pieces) == Names(pieces[1..]);
        case Some(m) =>
          RenderMeaning(m.rest, variables);
          assert pieces[1..] == Scan(m.rest) && Names(pieces) == [m.name] + Names(Scan(m.rest));
          FirstMissingHere(m.name, Names(Scan(m.rest)), variables);
          hide FirstMissing;
      }
    }
  }

  /** The same for a stored template: without variables every placeholder is missing. */
  lemma RenderTextMeaning(body: string, variables: Option<map<string, string>>)
    ensures var given := if variables.Some? then variables.value else map[];
            && (RenderTemplateText(body, variables).Ok? <==> forall n | n in Names(Scan(body)) :: n in given)
            && (RenderTemplateText(body, variables).Ok? ==>
                  RenderTemplateText(body, variables).value == Fill(Scan(body), given))
            && (RenderTemplateText(body, variables).Err? ==>
                  FirstMissing(Names(Scan(body)), given, RenderTemplateText(body, variables).error.name))
  {
    RenderMeaning(body, if variables.Some? then variables.value else map[]);
  }

  lemma {:induction false} NoPlaceholderUnchanged(pieces: seq<Piece>, variables: map<string, string>)
    requires Names(pieces) == []
    ensures Fill(pieces, variables) == Print(pieces)
  {
    if pieces != [] {
      NoPlaceholderUnchanged(pieces[1..], variables);
    }
  }

  /** A body without placeholders is sent unchanged, whatever the variables. */
  lemma PlainBodyUnchanged(body: string, variables: Option<map<string, string>>)
    requires Names(Scan(body)) == []
    ensures RenderTemplateText(body, variables) == Ok(body)
  {
    var vs := if variables.Some? then variables.value else map[];
    RenderMeaning(body, vs);
    ScanSplits(body);
    NoPlaceholderUnchanged(Scan(body), vs);
  }
}
