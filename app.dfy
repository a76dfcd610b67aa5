/** The two pieces of logic in the web service around the wrapper: reading the
    authentication dependencies from their setting, and accepting a request body only in one
    of the ontology's serialisations. Importing the named modules, and the web framework
    itself, are not modelled. */
module App {
  import opened Wrappers
  import opened Seqs
  import opened Json

  /** What Python's `str.isspace` accepts, the characters `str.strip()` removes. */
  predicate IsSpace(c: char)
  {
    c == ' ' || '\t' <= c <= '\r' || '\U{1C}' <= c <= '\U{1F}' || c == '\U{85}' ||
    c == '\U{A0}' || c == '\U{1680}' || '\U{2000}' <= c <= '\U{200A}' || c == '\U{2028}' ||
    c == '\U{2029}' || c == '\U{202F}' || c == '\U{205F}' || c == '\U{3000}'
  }

  /** `s.lstrip()`: s without its leading whitespace. */
  function StripLeft(s: string): (r: string)
    ensures |r| <= |s| && r == s[|s| - |r|..]
    ensures forall k :: 0 <= k < |s| - |r| ==> IsSpace(s[k])
    ensures r != [] ==> !IsSpace(r[0])
  {
    if s != [] && IsSpace(s[0]) then StripLeft(s[1..]) else s
  }

  /** `s.rstrip()`: s without its trailing whitespace. */
  function StripRight(s: string): (r: string)
    ensures |r| <= |s| && r == s[..|r|]
    ensures forall k :: |r| <= k < |s| ==> IsSpace(s[k])
    ensures r != [] ==> !IsSpace(r[|r| - 1])
  {
    if s != [] && IsSpace(s[|s| - 1]) then StripRight(s[..|s| - 1]) else s
  }

  /** `s.strip()`. */
  function Strip(s: string): string
  {
    StripRight(StripLeft(s))
  }

  /** What is left after stripping is the slice of s after its leading whitespace. */
  lemma StripSlice(s: string)
    ensures var i := |s| - |StripLeft(s)|;
      0 <= i <= i + |Strip(s)| <= |s| && Strip(s) == s[i..i + |Strip(s)|]
  {
    var l := StripLeft(s);
    assert Strip(s) == l[..|Strip(s)|];
  }

  /** Everything stripped off, before and after what is left, is whitespace. */
  lemma StripDrops(s: string)
    ensures var i := |s| - |StripLeft(s)|;
      && (forall k :: 0 <= k < i ==> IsSpace(s[k]))
      && (forall k :: i + |Strip(s)| <= k < |s| ==> IsSpace(s[k]))
  {
    var l := StripLeft(s);
    var i := |s| - |l|;
    forall k | i + |Strip(s)| <= k < |s| ensures IsSpace(s[k]) {
      assert s[k] == l[k - i];
    }
  }

  /** What is left after stripping neither starts nor ends with whitespace. */
  lemma StripEnds(s: string)
    ensures Strip(s) != [] ==> !IsSpace(Strip(s)[0]) && !IsSpace(Strip(s)[|Strip(s)| - 1])
  {
    if Strip(s) != [] {
      assert Strip(s)[0] == StripLeft(s)[0];
    }
  }

  /** Stripping removes whitespace at the two ends and nothing else: what is left is the
      slice of s after its leading whitespace and before its trailing whitespace, and it
      neither starts nor ends with whitespace. */
  lemma StripMeaning(s: string)
    ensures var i := |s| - |StripLeft(s)|;
      var j := i + |Strip(s)|;
      && 0 <= i <= j <= |s| && Strip(s) == s[i..j]
      && (forall k :: 0 <= k < i ==> IsSpace(s[k]))
      && (forall k :: j <= k < |s| ==> IsSpace(s[k]))
    ensures Strip(s) != [] ==> !IsSpace(Strip(s)[0]) && !IsSpace(Strip(s)[|Strip(s)| - 1])
  {
    StripSlice(s);
    StripDrops(s);
    StripEnds(s);
  }

  /** Stripping twice strips nothing more. */
  lemma StripIdempotent(s: string)
    ensures Strip(Strip(s)) == Strip(s)
  {
    StripEnds(s);
    StripFixed(Strip(s));
  }

  /** A string that neither starts nor ends with whitespace is its own strip. */
  lemma StripFixed(s: string)
    requires s != [] ==> !IsSpace(s[0]) && !IsSpace(s[|s| - 1])
    ensures Strip(s) == s
  {
  }

  /** `s.split(sep)` for a one-character separator: the pieces between separators, one more
      than there are separators. */
  function Split(s: string, sep: char): (r: seq<string>)
    ensures |r| >= 1
  {
    if s == [] then [[]]
    else
      var rest := Split(s[1..], sep);
      if s[0] == sep then [[]] + rest else [[s[0]] + rest[0]] + rest[1..]
  }

  /** A split has one piece more than there are separators, and no piece holds one. */
  lemma {:induction false} SplitShape(s: string, sep: char)
    ensures |Split(s, sep)| == multiset(s)[sep] + 1
    ensures forall i :: 0 <= i < |Split(s, sep)| ==> sep !in Split(s, sep)[i]
  {
    if s != [] {
      SplitShape(s[1..], sep);
      assert s == [s[0]] + s[1..];
      var rest := Split(s[1..], sep);
      if s[0] != sep {
        var r := Split(s, sep);
        assert r[0] == [s[0]] + rest[0];
        assert forall i :: 1 <= i < |r| ==> r[i] == rest[i];
      }
    }
  }

  /** `sep.join(parts)`. */
  function Join(parts: seq<string>, sep: char): string
    requires |parts| >= 1
  {
    if |parts| == 1 then parts[0] else parts[0] + [sep] + Join(parts[1..], sep)
  }

  /** Joining the pieces of a split gives back the string. */
  lemma {:induction false} JoinSplit(s: string, sep: char)
    ensures Join(Split(s, sep), sep) == s
  {
    if s != [] {
      var rest := Split(s[1..], sep);
      JoinSplit(s[1..], sep);
      if s[0] == sep {
        assert ([[]] + rest)[1..] == rest;
      } else if |rest| > 1 {
        var parts := [[s[0]] + rest[0]] + rest[1..];
        assert parts[1..] == rest[1..];
        assert Join(rest, sep) == rest[0] + [sep] + Join(rest[1..], sep);
      }
    }
  }

  /** Text without the separator in front of a string joins the string's first piece. */
  lemma {:induction false} SplitPrefix(a: string, sep: char, t: string)
    requires sep !in a
    ensures Split(a + t, sep) == [a + Split(t, sep)[0]] + Split(t, sep)[1..]
  {
    if a != [] {
      SplitPrefix(a[1..], sep, t);
      var st := Split(t, sep);
      var rest := Split(a[1..] + t, sep);
      assert (a + t)[1..] == a[1..] + t && (a + t)[0] == a[0] != sep;
      assert Split(a + t, sep) == [[a[0]] + rest[0]] + rest[1..];
      assert rest[0] == a[1..] + st[0] && rest[1..] == st[1..];
      assert [a[0]] + (a[1..] + st[0]) == a + st[0];
    } else {
      var st := Split(t, sep);
      assert a + t == t && a + st[0] == st[0];
      assert st == [st[0]] + st[1..];
    }
  }

  /** Splitting a join of pieces free of the separator gives back the pieces. */
  lemma {:induction false} SplitJoin(parts: seq<string>, sep: char)
    requires |parts| >= 1 && forall i :: 0 <= i < |parts| ==> sep !in parts[i]
    ensures Split(Join(parts, sep), sep) == parts
  {
    if |parts| == 1 {
      SplitPrefix(parts[0], sep, []);
      assert parts[0] + [] == parts[0];
    } else {
      var rest := parts[1..];
      SplitJoin(rest, sep);
      var j := Join(rest, sep);
      assert Split([sep] + j, sep) == [[]] + rest by {
        assert ([sep] + j)[1..] == j;
      }
      SplitPrefix(parts[0], sep, [sep] + j);
      assert Join(parts, sep) == parts[0] + ([sep] + j);
      assert parts[0] + [] == parts[0];
      assert ([[]] + rest)[1..] == rest;
      assert parts == [parts[0]] + rest;
    }
  }

  /** `s.replace("()", "")`: every `()` met scanning from the left is dropped. */
  function DropCalls(s: string): (r: string)
    ensures |r| <= |s|
  {
    if |s| >= 2 && s[0] == '(' && s[1] == ')' then DropCalls(s[2..])
    else if s == [] then []
    else [s[0]] + DropCalls(s[1..])
  }

  /** The characters that are not parentheses, in order. */
  function NonParens(s: string): string
  {
    if s == [] then []
    else (if s[0] == '(' || s[0] == ')' then [] else [s[0]]) + NonParens(s[1..])
  }

  /** Dropping `()` changes a string exactly when it holds one. */
  lemma {:induction false} DropCallsChanges(s: string)
    ensures DropCalls(s) == s <==> !Occurs("()", s)
  {
    if |s| >= 2 && s[0] == '(' && s[1] == ')' {
      assert IsPrefix("()", s);
    } else if s != [] {
      DropCallsChanges(s[1..]);
      assert !IsPrefix("()", s);
      assert DropCalls(s)[1..] == DropCalls(s[1..]);
    }
  }

  /** Dropping `()` keeps every character other than a parenthesis, in order. */
  lemma {:induction false} DropCallsKeeps(s: string)
    ensures NonParens(DropCalls(s)) == NonParens(s)
  {
    if |s| >= 2 && s[0] == '(' && s[1] == ')' {
      DropCallsKeeps(s[2..]);
      assert s[1..][1..] == s[2..];
    } else if s != [] {
      DropCallsKeeps(s[1..]);
      var r := DropCalls(s);
      assert r[0] == s[0] && r[1..] == DropCalls(s[1..]);
    }
  }

  /** How many times c occurs in s. */
  function Count(c: char, s: string): nat
  {
    if s == [] then 0 else (if s[0] == c then 1 else 0) + Count(c, s[1..])
  }

  /** Dropping `()` removes as many `(` as `)`, two characters per pair. */
  lemma {:induction false} DropCallsCounts(s: string)
    ensures 2 * Count('(', s) + |DropCalls(s)| == 2 * Count('(', DropCalls(s)) + |s|
    ensures Count('(', s) + Count(')', DropCalls(s)) == Count(')', s) + Count('(', DropCalls(s))
  {
    if |s| >= 2 && s[0] == '(' && s[1] == ')' {
      DropCallsCounts(s[2..]);
      assert s[1..][1..] == s[2..];
    } else if s != [] {
      DropCallsCounts(s[1..]);
      var r := DropCalls(s);
      assert r[0] == s[0] && r[1..] == DropCalls(s[1..]);
    }
  }

  /** One authentication dependency: the module to import, the class to take from it, and
      whether the class is to be called to get the dependency. */
  datatype Dependency = Dependency(moduleName: string, className: string, called: bool)

  /** One `module:Class` segment, stripped at its ends; a segment with no `:` or more than
      one cannot be unpacked into a pair. */
  function ParseSegment(segment: string): (r: Result<Dependency, PyError>)
    ensures r.Ok? <==> multiset(Strip(segment))[':'] == 1
    ensures r.Err? ==> r.error == ValueError
    ensures r.Ok? ==> |r.value.moduleName| < |Strip(segment)|
    ensures r.Ok? ==>
      var d := r.value;
      var raw := Strip(segment)[|d.moduleName| + 1..];
      && Strip(segment) == d.moduleName + [':'] + raw
      && ':' !in d.moduleName && ':' !in raw
      && (d.called <==> Occurs("()", raw))
      && d.className == (if d.called then DropCalls(raw) else raw)
  {
    var parts := Split(Strip(segment), ':');
    SplitShape(Strip(segment), ':');
    if |parts| != 2 then Err(ValueError)
    else
      JoinSplit(Strip(segment), ':');
      assert parts[1..] == [parts[1]];
      var moduleName := parts[0];
      var className := parts[1];
      assert Strip(segment) == moduleName + [':'] + className;
      assert Strip(segment)[|moduleName| + 1..] == className;
      if Occurs("()", className) then Ok(Dependency(moduleName, DropCalls(className), true))
      else Ok(Dependency(moduleName, className, false))
  }

  function Parse(): string -> Result<Dependency, PyError>
  {
    segment => ParseSegment(segment)
  }

  /** The parsing part of `get_deps`: no setting, or an empty one, gives no dependencies;
      otherwise one per `|`-separated segment. */
  function Dependencies(setting: Option<string>): Result<seq<Dependency>, PyError>
  {
    if setting.None? || setting.value == "" then Ok([])
    else MapAll(Parse(), Split(setting.value, '|'))
  }

  /** A setting yields one dependency per `|`-separated segment, in order, each parsed from
      its own segment; it fails exactly when some segment, stripped, does not hold exactly
      one `:`. */
  lemma DependenciesMeaning(setting: Option<string>)
    ensures setting.None? || setting.value == "" ==> Dependencies(setting) == Ok([])
    ensures setting.Some? && setting.value != "" ==>
      var segments := Split(setting.value, '|');
      && (Dependencies(setting).Ok? <==>
            forall i :: 0 <= i < |segments| ==> multiset(Strip(segments[i]))[':'] == 1)
      && (Dependencies(setting).Ok? ==>
            && |Dependencies(setting).value| == multiset(setting.value)['|'] + 1
            && forall i :: 0 <= i < |segments| ==>
                 Dependencies(setting).value[i] == ParseSegment(segments[i]).value)
  {
    if setting.Some? && setting.value != "" {
      var segments := Split(setting.value, '|');
      SplitShape(setting.value, '|');
      MapAllOk(Parse(), segments);
      forall i | 0 <= i < |segments|
        ensures Parse()(segments[i]).Ok? <==> multiset(Strip(segments[i]))[':'] == 1
        ensures Parse()(segments[i]) == ParseSegment(segments[i])
      {
      }
    }
  }

  /** The serialisations a request body may come in. */
  const MimeTypes: seq<string> := ["text/turtle", "application/ld+json"]

  /** The detail of the 400 reply: the accepted types, as Python prints the list. */
  const BodyRefused := "Payload must be one of the following types: ['text/turtle', 'application/ld+json']"

  /** An HTTP error reply. */
  datatype HttpError = HttpError(status: int, detail: string)

  /** `get_body`: the body when the request's `Content-Type` header (None when absent) is one
      of the accepted types, compared as a whole string, and a 400 otherwise. */
  function Body(contentType: Option<string>, body: string): (r: Result<string, HttpError>)
    ensures r.Ok? <==> contentType == Some("text/turtle") || contentType == Some("application/ld+json")
    ensures r.Ok? ==> r.value == body
    ensures r.Err? ==> r.error.status == 400
  {
    if contentType.Some? && contentType.value in MimeTypes then Ok(body)
    else Err(HttpError(400, BodyRefused))
  }
}
