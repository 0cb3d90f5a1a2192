/**
  The two string built-ins the allowlist parser uses: `String.prototype.trim` and
  `String.prototype.split(",")`, as ECMA-262 defines them.
 */
module JsString {

  /** The characters `trim` removes: WhiteSpace (section 12.2 of ECMA-262: TAB, VT, FF,
      ZWNBSP and every Unicode "Space_Separator") and LineTerminator (section 12.3: LF, CR,
      LINE SEPARATOR, PARAGRAPH SEPARATOR). */
  predicate IsSpace(c: char) {
    c == '\t' || c == '\n' || c == '\U{000B}' || c == '\U{000C}' || c == '\r'
    || c == ' ' || c == '\U{00A0}' || c == '\U{1680}' || ('\U{2000}' <= c <= '\U{200A}')
    || c == '\U{2028}' || c == '\U{2029}' || c == '\U{202F}' || c == '\U{205F}'
    || c == '\U{3000}' || c == '\U{FEFF}'
  }

  predicate AllSpace(s: string) {
    forall i :: 0 <= i < |s| ==> IsSpace(s[i])
  }

  /** Neither end of `s` is white space. */
  predicate IsTrimmed(s: string) {
    s == [] || (!IsSpace(s[0]) && !IsSpace(s[|s| - 1]))
  }

  /** Length of the longest all-space prefix. */
  function LeadingSpace(s: string): (k: nat)
    ensures k <= |s|
    ensures forall i :: 0 <= i < k ==> IsSpace(s[i])
    ensures k == |s| || !IsSpace(s[k])
  {
    if s != [] && IsSpace(s[0]) then 1 + LeadingSpace(s[1..]) else 0
  }

  /** Length of the longest all-space suffix. */
  function TrailingSpace(s: string): (k: nat)
    ensures k <= |s|
    ensures forall i :: |s| - k <= i < |s| ==> IsSpace(s[i])
    ensures k == |s| || !IsSpace(s[|s| - k - 1])
  {
    if s != [] && IsSpace(s[|s| - 1]) then 1 + TrailingSpace(s[..|s| - 1]) else 0
  }

  /** `s.trim()`: `s` without its leading and trailing white space. */
  function Trim(s: string): (r: string)
    ensures IsTrimmed(r)
    ensures |r| <= |s|
  {
    var t := s[LeadingSpace(s)..];
    t[..|t| - TrailingSpace(t)]
  }

  /** `Trim` removes white space and nothing else: what it returns is a slice of `s`
      whose surroundings are all space. */
  lemma TrimRemovesOnlySpace(s: string)
    ensures exists i, j :: 0 <= i <= j <= |s| && Trim(s) == s[i..j] && AllSpace(s[..i]) && AllSpace(s[j..])
  {
    var i := LeadingSpace(s);
    var t := s[i..];
    var j := i + |t| - TrailingSpace(t);
    assert forall k :: j <= k < |s| ==> s[k] == t[k - i];
    assert AllSpace(s[..i]);
    assert AllSpace(s[j..]);
    assert Trim(s) == s[i..j];
  }

  /** The other half of the characterisation: padding a trimmed string with white space on
      both sides and trimming gives it back. */
  lemma {:induction false} TrimOfPadded(lead: string, core: string, trail: string)
    requires AllSpace(lead) && AllSpace(trail) && IsTrimmed(core)
    ensures Trim(lead + core + trail) == core
  {
    var s := lead + core + trail;
    assert s == lead + (core + trail);
    LeadingSpaceOfPadded(lead, core + trail);
    var t := s[LeadingSpace(s)..];
    if core == [] {
      assert core + trail == trail;
      LeadingSpaceOfAllSpace(trail);
      assert |t| == 0;
    } else {
      assert (core + trail)[0] == core[0];
      assert LeadingSpace(core + trail) == 0;
      assert t == core + trail;
      TrailingSpaceOfPadded(core, trail);
      assert t[..|t| - |trail|] == core;
    }
  }

  lemma {:induction false} LeadingSpaceOfAllSpace(s: string)
    requires AllSpace(s)
    ensures LeadingSpace(s) == |s|
  {
    if s != [] {
      LeadingSpaceOfAllSpace(s[1..]);
    }
  }

  lemma {:induction false} LeadingSpaceOfPadded(lead: string, rest: string)
    requires AllSpace(lead)
    ensures LeadingSpace(lead + rest) == |lead| + LeadingSpace(rest)
  {
    if lead != [] {
      assert (lead + rest)[0] == lead[0] && IsSpace(lead[0]);
      assert (lead + rest)[1..] == lead[1..] + rest;
      LeadingSpaceOfPadded(lead[1..], rest);
      assert LeadingSpace(lead + rest) == 1 + LeadingSpace(lead[1..] + rest);
    } else {
      assert lead + rest == rest;
    }
  }

  lemma {:induction false} TrailingSpaceOfPadded(core: string, trail: string)
    requires AllSpace(trail) && IsTrimmed(core) && core != []
    ensures TrailingSpace(core + trail) == |trail|
  {
    if trail != [] {
      var s := core + trail;
      assert s[..|s| - 1] == core + trail[..|trail| - 1];
      TrailingSpaceOfPadded(core, trail[..|trail| - 1]);
    } else {
      assert core + trail == core;
    }
  }

  /** Trimming twice is trimming once. */
  lemma TrimIdempotent(s: string)
    ensures Trim(Trim(s)) == Trim(s)
  {
    assert [] + Trim(s) + [] == Trim(s);
    TrimOfPadded([], Trim(s), []);
  }

  /** `s.split(",")`: the pieces between commas, in order; the empty string gives one empty
      piece and every comma adds a piece. */
  function Split(s: string): (parts: seq<string>)
    ensures |parts| >= 1
  {
    if s == [] then [[]]
    else
      var rest := Split(s[1..]);
      if s[0] == ',' then [[]] + rest else [[s[0]] + rest[0]] + rest[1..]
  }

  /** `parts.join(",")`. */
  function Join(parts: seq<string>): (s: string)
    requires |parts| >= 1
  {
    if |parts| == 1 then parts[0] else parts[0] + [','] + Join(parts[1..])
  }

  predicate CommaFree(s: string) {
    ',' !in s
  }

  /** No piece `Split` returns contains the separator. */
  lemma {:induction false} SplitPiecesCommaFree(s: string)
    ensures forall k :: 0 <= k < |Split(s)| ==> CommaFree(Split(s)[k])
  {
    if s != [] {
      SplitPiecesCommaFree(s[1..]);
    }
  }

  /** Joining the pieces with commas gives back the input. */
  lemma {:induction false} JoinSplit(s: string)
    ensures Join(Split(s)) == s
  {
    if s != [] {
      var rest := Split(s[1..]);
      JoinSplit(s[1..]);
      if s[0] == ',' {
        assert Split(s)[1..] == rest;
      } else {
        var parts := Split(s);
        assert parts[0] == [s[0]] + rest[0];
        if |rest| > 1 {
          assert parts[1..] == rest[1..];
        }
      }
    }
  }

  /** A comma-free string is one piece. */
  lemma {:induction false} SplitCommaFree(s: string)
    requires CommaFree(s)
    ensures Split(s) == [s]
  {
    if s != [] {
      assert s[0] != ',';
      assert CommaFree(s[1..]) by { assert forall k :: 0 <= k < |s[1..]| ==> s[1..][k] == s[k + 1]; }
      SplitCommaFree(s[1..]);
      assert [s[0]] + s[1..] == s;
    }
  }

  /** Splitting at a comma splits the pieces: the parts of `a` come first, then those of `b`. */
  lemma {:induction false} SplitConcat(a: string, b: string)
    ensures Split(a + [','] + b) == Split(a) + Split(b)
  {
    if a == [] {
      assert a + [','] + b == [','] + b;
      assert ([','] + b)[1..] == b;
    } else {
      var s := a + [','] + b;
      assert s[0] == a[0] && s[1..] == a[1..] + [','] + b;
      SplitConcat(a[1..], b);
    }
  }

  /** The other round trip: splitting comma-joined comma-free pieces gives them back. */
  lemma {:induction false} SplitJoin(parts: seq<string>)
    requires |parts| >= 1
    requires forall k :: 0 <= k < |parts| ==> CommaFree(parts[k])
    ensures Split(Join(parts)) == parts
  {
    SplitCommaFree(parts[0]);
    if |parts| > 1 {
      SplitJoin(parts[1..]);
      SplitConcat(parts[0], Join(parts[1..]));
      assert [parts[0]] + parts[1..] == parts;
    }
  }
}
