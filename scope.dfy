/**
 * Scopes: the text column that stores a list of scope tokens
 * (SeparatedValuesField), the scope-token syntax check (parse_scope) and
 * the narrowing of a requested scope to the granted one.
 */
module Scope {
  import opened Wrappers

  /** A scope field as Python holds it after `to_python`: None, or a list of tokens. */
  type ScopeValue = Option<seq<string>>

  /** What `to_python` may be handed: nothing, the column's text, or a list already. */
  datatype FieldInput = Null | Text(text: string) | Items(items: seq<string>)

  /** Python's `not value` for the three kinds of input. */
  predicate Falsy(v: FieldInput) {
    match v
    case Null => true
    case Text(s) => s == ""
    case Items(xs) => xs == []
  }

  // ---------------------------------------------------------------------
  // String splitting and joining on a one-character separator
  // ---------------------------------------------------------------------

  /** Python's `s.split(sep)`: every occurrence of `sep` ends a piece, so
      there is always at least one piece and empty pieces are kept. */
  function Split(s: string, sep: char): (r: seq<string>)
    ensures |r| >= 1
    ensures forall i :: 0 <= i < |r| ==> sep !in r[i]
  {
    if s == [] then [""]
    else if s[0] == sep then [""] + Split(s[1..], sep)
    else
      var rest := Split(s[1..], sep);
      [[s[0]] + rest[0]] + rest[1..]
  }

  /** Python's `sep.join(xs)`: the first piece, then each further piece
      after a separator. */
  function Join(xs: seq<string>, sep: char): (r: string)
    ensures |xs| >= 1 ==> xs[0] <= r
    ensures |xs| >= 2 ==> |r| > |xs[0]| && r[|xs[0]|] == sep
    ensures |xs| == 0 ==> r == ""
  {
    if |xs| == 0 then ""
    else if |xs| == 1 then xs[0]
    else xs[0] + [sep] + Join(xs[1..], sep)
  }

  lemma {:induction false} SplitWithoutSeparator(a: string, sep: char)
    requires sep !in a
    ensures Split(a, sep) == [a]
  {
    if a != [] {
      SplitWithoutSeparator(a[1..], sep);
      assert [a[0]] + a[1..] == a;
    }
  }

  lemma {:induction false} SplitAtSeparator(a: string, t: string, sep: char)
    requires sep !in a
    ensures Split(a + [sep] + t, sep) == [a] + Split(t, sep)
  {
    var s := a + [sep] + t;
    if a == [] {
      assert s[1..] == t;
    } else {
      assert s[0] == a[0];
      assert s[1..] == a[1..] + [sep] + t;
      SplitAtSeparator(a[1..], t, sep);
      assert [a[0]] + a[1..] == a;
    }
  }

  /** Joining the pieces of a split gives back the text. */
  lemma {:induction false} JoinSplit(s: string, sep: char)
    ensures Join(Split(s, sep), sep) == s
  {
    if s != [] {
      var rest := Split(s[1..], sep);
      JoinSplit(s[1..], sep);
      if s[0] == sep {
        assert ([""] + rest)[1..] == rest;
      } else {
        var r := [[s[0]] + rest[0]] + rest[1..];
        if |rest| > 1 {
          assert r[1..] == rest[1..];
        }
      }
    }
  }

  /** Splitting a join gives back the pieces, when no piece holds the separator. */
  lemma {:induction false} SplitJoin(xs: seq<string>, sep: char)
    requires |xs| >= 1
    requires forall i :: 0 <= i < |xs| ==> sep !in xs[i]
    ensures Split(Join(xs, sep), sep) == xs
  {
    if |xs| == 1 {
      SplitWithoutSeparator(xs[0], sep);
    } else {
      SplitAtSeparator(xs[0], Join(xs[1..], sep), sep);
      SplitJoin(xs[1..], sep);
      assert [xs[0]] + xs[1..] == xs;
    }
  }

  // ---------------------------------------------------------------------
  // SeparatedValuesField (fulmine/models.py:35-56)
  // ---------------------------------------------------------------------

  /** `SeparatedValuesField.to_python`: falsy input is None, a list passes
      through, and text is split on the separator. */
  function ToPython(v: FieldInput, sep: char): (r: ScopeValue)
    ensures r.None? <==> Falsy(v)
    ensures v.Items? && r.Some? ==> r.value == v.items
    ensures v.Text? && r.Some? ==> |r.value| >= 1 && forall i :: 0 <= i < |r.value| ==> sep !in r.value[i]
  {
    match v
    case Null => None
    case Text(s) => if s == "" then None else Some(Split(s, sep))
    case Items(xs) => if xs == [] then None else Some(xs)
  }

  /** `SeparatedValuesField.get_db_prep_value`: falsy input is None, a list
      is joined with the separator. */
  function GetDbPrepValue(v: ScopeValue, sep: char): (r: Option<string>)
    ensures r.None? <==> v.None? || v == Some([])
    ensures r.Some? ==> (|v.value| == 1 ==> r.value == v.value[0])
  {
    match v
    case None => None
    case Some(xs) => if xs == [] then None else Some(Join(xs, sep))
  }

  /** Storing a list and loading it back gives the list, when it is not
      empty, no token holds the separator and the stored text is not empty. */
  lemma StoreThenLoad(xs: seq<string>, sep: char)
    requires xs != []
    requires forall i :: 0 <= i < |xs| ==> sep !in xs[i]
    requires Join(xs, sep) != ""
    ensures GetDbPrepValue(Some(xs), sep).Some?
    ensures ToPython(Text(GetDbPrepValue(Some(xs), sep).value), sep) == Some(xs)
  {
    SplitJoin(xs, sep);
  }

  /** Loading non-empty text and storing it back gives the text. */
  lemma LoadThenStore(s: string, sep: char)
    requires s != ""
    ensures ToPython(Text(s), sep).Some?
    ensures GetDbPrepValue(ToPython(Text(s), sep), sep) == Some(s)
  {
    JoinSplit(s, sep);
    assert Split(s, sep) != [];
  }

  /** The value a scope field has when its record is read back from the
      database: the text `get_db_prep_value` stored, passed through
      `to_python`. An empty stored text reads back as None. */
  function Reload(v: ScopeValue, sep: char): (r: ScopeValue)
    ensures r.Some? ==> |r.value| >= 1 && forall i :: 0 <= i < |r.value| ==> sep !in r.value[i]
    ensures r.Some? ==> GetDbPrepValue(r, sep) == GetDbPrepValue(v, sep)
    ensures r.None? <==> GetDbPrepValue(v, sep).None? || GetDbPrepValue(v, sep) == Some("")
  {
    match GetDbPrepValue(v, sep)
    case None => None
    case Some(text) =>
      if text == "" then None
      else
        LoadThenStore(text, sep);
        ToPython(Text(text), sep)
  }

  /** Reading back a value read back before gives the same value. */
  lemma ReloadIdempotent(v: ScopeValue, sep: char)
    ensures Reload(Reload(v, sep), sep) == Reload(v, sep)
  {
    var r := Reload(v, sep);
    if r.Some? {
      var text := GetDbPrepValue(v, sep).value;
      assert r == Some(Split(text, sep));
      assert GetDbPrepValue(r, sep) == Some(text);
    }
  }

  /** A non-empty list whose first token is not empty and whose tokens hold
      no separator reads back unchanged. */
  lemma ReloadKeeps(xs: seq<string>, sep: char)
    requires xs != [] && xs[0] != ""
    requires forall i :: 0 <= i < |xs| ==> sep !in xs[i]
    ensures Reload(Some(xs), sep) == Some(xs)
  {
    StoreThenLoad(xs, sep);
  }

  /** A scope parse_scope accepts reads back unchanged from its column. */
  lemma ReloadValidScope(xs: seq<string>)
    requires xs != [] && ParseScopeAsWritten(xs).Ok?
    ensures Reload(Some(xs), ' ') == Some(xs)
  {
    forall i | 0 <= i < |xs|
      ensures xs[i] != "" && ' ' !in xs[i]
    {
      var s := xs[i];
      assert ScopeReMatches(s);
      if !IsScopeToken(s) {
        var t := s[..|s| - 1];
        assert IsScopeToken(t) && s == t + ['\n'];
        assert forall j :: 0 <= j < |t| ==> NqChar(t[j]);
      } else {
        assert forall j :: 0 <= j < |s| ==> NqChar(s[j]);
      }
    }
    ReloadKeeps(xs, ' ');
  }

  /** A token holding the separator comes back split, and a list of one
      empty token comes back as None. */
  lemma ReloadChanges()
    ensures Reload(Some(["read write"]), ' ') == Some(["read", "write"])
    ensures Reload(Some([""]), ' ') == None
  {
    var t := "read write";
    assert GetDbPrepValue(Some([t]), ' ') == Some(t);
    assert t == "read" + [' '] + "write";
    assert ' ' !in "read" && ' ' !in "write";
    SplitAtSeparator("read", "write", ' ');
    SplitWithoutSeparator("write", ' ');
    assert Split(t, ' ') == ["read", "write"];
    assert GetDbPrepValue(Some([""]), ' ') == Some("");
  }

  // ---------------------------------------------------------------------
  // parse_scope and scope_re (fulmine/models.py:327-332)
  // ---------------------------------------------------------------------

  /** NQCHAR of section 3.3 of RFC 6749: %x21 / %x23-5B / %x5D-7E. */
  predicate NqChar(c: char) {
    c as int == 0x21 || (0x23 <= c as int <= 0x5B) || (0x5D <= c as int <= 0x7E)
  }

  /** A scope-token of section 3.3 of RFC 6749: 1*NQCHAR. */
  predicate IsScopeToken(s: string) {
    |s| >= 1 && forall i :: 0 <= i < |s| ==> NqChar(s[i])
  }

  /** The character class `[!#-[\]-~]` of scope_re. */
  predicate ClassChar(c: char) {
    c == '!' || ('#' <= c <= '[') || (']' <= c <= '~')
  }

  /** `scope_re.match(s) is not None` for `^[!#-[\]-~]+$`. Python's `$`
      matches at the end of the text and also just before a final newline. */
  predicate ScopeReMatches(s: string)
    ensures ScopeReMatches(s) <==>
      IsScopeToken(s) || (|s| >= 2 && s[|s| - 1] == '\n' && IsScopeToken(s[..|s| - 1]))
  {
    ClassToken(s) || (|s| >= 2 && s[|s| - 1] == '\n' && ClassToken(s[..|s| - 1]))
  }

  datatype ScopeError = InvalidScope

  /** parse_scope as written: every token must match scope_re. */
  function ParseScopeAsWritten(scope: seq<string>): (r: Result<seq<string>, ScopeError>)
    ensures r.Ok? <==> forall i :: 0 <= i < |scope| ==> ScopeReMatches(scope[i])
    ensures r.Ok? ==> r.value == scope
  {
    if exists i :: 0 <= i < |scope| && !ScopeReMatches(scope[i]) then Err(InvalidScope) else Ok(scope)
  }

  /** parse_scope with the pattern anchored at the very end of each token. A
      token passes it exactly when it is a scope-token of RFC 6749. */
  function ParseScope(scope: seq<string>): (r: Result<seq<string>, ScopeError>)
    ensures r.Ok? <==> forall i :: 0 <= i < |scope| ==> IsScopeToken(scope[i])
    ensures r.Ok? ==> r.value == scope
  {
    if exists i :: 0 <= i < |scope| && !ClassToken(scope[i]) then Err(InvalidScope) else Ok(scope)
  }

  /** `[!#-[\]-~]+` matched against the whole token. */
  predicate ClassToken(s: string)
    ensures ClassToken(s) <==> IsScopeToken(s)
  {
    |s| >= 1 && forall i :: 0 <= i < |s| ==> ClassChar(s[i])
  }

  /** The class of scope_re is exactly NQCHAR: it leaves out `"` and `\`
      and lets `[` and `]` in. */
  lemma ClassCharIsNqChar(c: char)
    ensures ClassChar(c) <==> NqChar(c)
    ensures !ClassChar('"') && !ClassChar('\\') && ClassChar('[') && ClassChar(']')
  {
  }

  /** On a token without a newline, the written pattern and the scope-token
      grammar agree. */
  lemma ScopeReMatchesWithoutNewline(s: string)
    requires '\n' !in s
    ensures ScopeReMatches(s) <==> IsScopeToken(s)
  {
  }

  /** The written pattern lets a token with a trailing newline through,
      which the scope-token grammar forbids. */
  lemma TrailingNewlinePassesAsWritten()
    ensures ParseScopeAsWritten(["read\n"]) == Ok(["read\n"])
    ensures ParseScope(["read\n"]) == Err(InvalidScope)
  {
    var s := "read\n";
    assert s[..|s| - 1] == "read";
    assert !ClassChar(s[4]) && !ClassToken(s);
    assert ["read\n"][0] == s;
  }

  // ---------------------------------------------------------------------
  // Scope narrowing in new_access_token (fulmine/models.py:92-96)
  // ---------------------------------------------------------------------

  predicate NoDuplicates(xs: seq<string>) {
    forall i, j :: 0 <= i < j < |xs| ==> xs[i] != xs[j]
  }

  /** `list(set(requested) & set(granted))`. Python leaves the order open;
      this picks one. */
  function Intersect(requested: seq<string>, granted: seq<string>): (r: seq<string>)
    ensures forall x :: x in r <==> x in requested && x in granted
    ensures NoDuplicates(r)
  {
    if requested == [] then []
    else
      var rest := Intersect(requested[1..], granted);
      if requested[0] in granted && requested[0] !in rest then [requested[0]] + rest else rest
  }

  /** Python's truth value of the `scope` argument of new_access_token. */
  predicate Requested(scope: ScopeValue) {
    scope.Some? && scope.value != []
  }

  /** Every token of `s` is one of the granted tokens. */
  predicate ScopeWithin(s: ScopeValue, granted: ScopeValue) {
    s.Some? ==> granted.Some? && forall x :: x in s.value ==> x in granted.value
  }

  /** The scope a new access token gets: the intersection of the requested
      and the granted scope when a scope is requested, the granted scope
      otherwise. None stands for the TypeError `set(None)` raises when a
      scope is requested from a grant that has none. */
  function TokenScope(requested: ScopeValue, granted: ScopeValue): (r: Option<ScopeValue>)
    ensures r.None? <==> Requested(requested) && granted.None?
    ensures r.Some? ==> ScopeWithin(r.value, granted)
    ensures !Requested(requested) ==> r == Some(granted)
    ensures Requested(requested) && r.Some? ==>
      r.value.Some? && NoDuplicates(r.value.value) &&
      forall x :: x in r.value.value <==> x in requested.value && x in granted.value
  {
    if Requested(requested) then
      if granted.None? then None else Some(Some(Intersect(requested.value, granted.value)))
    else Some(granted)
  }
}
