/** The pieces of Python's text handling the module loader relies on: `str.split()`
    on whitespace, `str.split(sep)`, `sep.join`, `str.strip()` and
    `string.Template.safe_substitute`. Whitespace is the ASCII part of Python's. */
module PyText {

  /** Space, tab, the line and page breaks (9 to 13) and the separators 28 to 31. */
  predicate IsSpace(c: char) {
    c == ' ' || 9 <= c as int <= 13 || 28 <= c as int <= 31
  }

  predicate AllSpace(s: string) {
    forall i :: 0 <= i < |s| ==> IsSpace(s[i])
  }

  // ---------------------------------------------------------------------------
  // str.split()
  // ---------------------------------------------------------------------------

  /** The length of the word at the start of `s`. */
  function WordLen(s: string): (n: nat)
    ensures n <= |s|
    ensures forall i :: 0 <= i < n ==> !IsSpace(s[i])
    ensures n < |s| ==> IsSpace(s[n])
  {
    if s == [] || IsSpace(s[0]) then 0 else 1 + WordLen(s[1..])
  }

  /** `s.split()`: the maximal runs of non-whitespace, in order. */
  function Words(s: string): (ws: seq<string>)
    ensures forall k :: 0 <= k < |ws| ==> ws[k] != "" && forall i :: 0 <= i < |ws[k]| ==> !IsSpace(ws[k][i])
    decreases |s|
  {
    if s == [] then []
    else if IsSpace(s[0]) then Words(s[1..])
    else
      var n := WordLen(s);
      [s[..n]] + Words(s[n..])
  }

  /** A line has no words exactly when it is blank. */
  lemma {:induction false} WordsBlank(s: string)
    ensures Words(s) == [] <==> AllSpace(s)
    decreases |s|
  {
    if s != [] {
      WordsBlank(s[1..]);
      if IsSpace(s[0]) {
        assert AllSpace(s) <==> AllSpace(s[1..]) by {
          if AllSpace(s[1..]) {
            forall i | 0 <= i < |s|
              ensures IsSpace(s[i])
            {
              if i > 0 {
                assert s[i] == s[1..][i - 1];
              }
            }
          }
        }
      }
    }
  }

  // ---------------------------------------------------------------------------
  // str.split(sep) and sep.join
  // ---------------------------------------------------------------------------

  /** The index of the first `c` in `s`, or `|s|` when there is none. */
  function Find(s: string, c: char): (i: nat)
    ensures i <= |s| && (i < |s| ==> s[i] == c)
  {
    if s == [] || s[0] == c then 0 else 1 + Find(s[1..], c)
  }

  /** No `c` comes before `Find(s, c)`. */
  lemma {:induction false} FindFirst(s: string, c: char)
    ensures forall j :: 0 <= j < Find(s, c) ==> s[j] != c
  {
    if s != [] && s[0] != c {
      FindFirst(s[1..], c);
    }
  }

  /** Searching `a + x` finds the first `c` of `a`, or else searches on in `x`. */
  lemma {:induction false} FindAppend(a: string, x: string, c: char)
    ensures Find(a + x, c) == if Find(a, c) < |a| then Find(a, c) else |a| + Find(x, c)
  {
    if a == [] {
      assert a + x == x;
    } else if a[0] != c {
      FindAppend(a[1..], x, c);
      assert (a + x)[1..] == a[1..] + x;
    }
  }

  /** `s.split(sep)` for a one-character separator: the text before the first
      separator, then the parts of what follows it. Always at least one part. */
  function Split(s: string, sep: char): (parts: seq<string>)
    ensures |parts| >= 1
    decreases |s|
  {
    var i := Find(s, sep);
    if i == |s| then [s] else [s[..i]] + Split(s[i + 1..], sep)
  }

  /** One step of `Split` when there is a separator. */
  lemma SplitStep(s: string, sep: char)
    requires Find(s, sep) < |s|
    ensures Split(s, sep) == [s[..Find(s, sep)]] + Split(s[Find(s, sep) + 1..], sep)
  {
  }

  /** No part contains the separator. */
  lemma {:induction false} SplitPartsLackSep(s: string, sep: char)
    ensures forall k :: 0 <= k < |Split(s, sep)| ==> sep !in Split(s, sep)[k]
    decreases |s|
  {
    var i := Find(s, sep);
    FindFirst(s, sep);
    assert sep !in s[..i];
    if i < |s| {
      SplitPartsLackSep(s[i + 1..], sep);
      SplitStep(s, sep);
    }
  }

  /** Text without the separator is a single part. */
  lemma SplitWithoutSep(s: string, sep: char)
    requires sep !in s
    ensures Split(s, sep) == [s]
  {
  }

  /** `sep.join(parts)`. */
  function Join(parts: seq<string>, sep: string): string {
    if parts == [] then ""
    else if |parts| == 1 then parts[0]
    else parts[0] + sep + Join(parts[1..], sep)
  }

  /** Joining the parts with the separator gives the string back. */
  lemma {:induction false} JoinSplit(s: string, sep: char)
    ensures Join(Split(s, sep), [sep]) == s
    decreases |s|
  {
    var i := Find(s, sep);
    if i < |s| {
      JoinSplit(s[i + 1..], sep);
      assert s == s[..i] + [sep] + s[i + 1..];
    }
  }

  /** How often `c` occurs in `s`. */
  function Count(s: string, c: char): nat {
    if s == [] then 0 else (if s[0] == c then 1 else 0) + Count(s[1..], c)
  }

  lemma {:induction false} CountAppend(a: string, b: string, c: char)
    ensures Count(a + b, c) == Count(a, c) + Count(b, c)
  {
    if a == [] {
      assert a + b == b;
    } else {
      CountAppend(a[1..], b, c);
      assert (a + b)[1..] == a[1..] + b;
    }
  }

  lemma {:induction false} CountNone(a: string, c: char)
    requires forall j :: 0 <= j < |a| ==> a[j] != c
    ensures Count(a, c) == 0
  {
    if a != [] {
      CountNone(a[1..], c);
    }
  }

  /** There is one part more than there are separators. */
  lemma {:induction false} SplitCount(s: string, sep: char)
    ensures |Split(s, sep)| == Count(s, sep) + 1
    decreases |s|
  {
    var i := Find(s, sep);
    FindFirst(s, sep);
    CountNone(s[..i], sep);
    if i == |s| {
      assert s[..i] == s;
    } else {
      SplitCount(s[i + 1..], sep);
      assert s == s[..i] + ([sep] + s[i + 1..]);
      CountAppend(s[..i], [sep] + s[i + 1..], sep);
      CountAppend([sep], s[i + 1..], sep);
    }
  }

  /** Splitting `a:b` gives the parts of `a` followed by the parts of `b`. */
  lemma {:induction false} SplitAround(a: string, b: string, sep: char)
    ensures Split(a + [sep] + b, sep) == Split(a, sep) + Split(b, sep)
    decreases |a|
  {
    var s := a + [sep] + b;
    FindAppend(a, [sep] + b, sep);
    assert s == a + ([sep] + b);
    var i := Find(a, sep);
    if i == |a| {
      assert s[..i] == a && s[i + 1..] == b;
      SplitStep(s, sep);
    } else {
      var t := a[i + 1..];
      assert s[..i] == a[..i];
      assert s[i + 1..] == t + [sep] + b;
      calc {
        Split(s, sep);
      == { SplitStep(s, sep); }
        [a[..i]] + Split(t + [sep] + b, sep);
      == { SplitAround(t, b, sep); }
        [a[..i]] + (Split(t, sep) + Split(b, sep));
      ==
        ([a[..i]] + Split(t, sep)) + Split(b, sep);
      == { SplitStep(a, sep); }
        Split(a, sep) + Split(b, sep);
      }
    }
  }

  // ---------------------------------------------------------------------------
  // str.strip()
  // ---------------------------------------------------------------------------

  function StripStart(s: string): (t: string)
    ensures |t| <= |s|
  {
    if s != [] && IsSpace(s[0]) then StripStart(s[1..]) else s
  }

  function StripEnd(s: string): (t: string)
    ensures |t| <= |s|
  {
    if s != [] && IsSpace(s[|s| - 1]) then StripEnd(s[..|s| - 1]) else s
  }

  /** `s.strip()`: the middle of `s` between its leading and trailing whitespace. */
  function Strip(s: string): (t: string)
    ensures |t| <= |s|
  {
    StripEnd(StripStart(s))
  }

  /** `lstrip` removes a blank prefix and stops at the first non-space. */
  lemma {:induction false} StripStartShape(s: string)
    ensures var t := StripStart(s);
            t == s[|s| - |t|..] && AllSpace(s[..|s| - |t|]) && (t != [] ==> !IsSpace(t[0]))
    decreases |s|
  {
    if s != [] && IsSpace(s[0]) {
      StripStartShape(s[1..]);
      var t := StripStart(s[1..]);
      assert s[..|s| - |t|] == [s[0]] + s[1..][..|s[1..]| - |t|];
    }
  }

  /** `rstrip` removes a blank suffix and stops at the last non-space. */
  lemma {:induction false} StripEndShape(s: string)
    ensures var t := StripEnd(s);
            t == s[..|t|] && AllSpace(s[|t|..]) && (t != [] ==> !IsSpace(t[|t| - 1]))
    decreases |s|
  {
    if s != [] && IsSpace(s[|s| - 1]) {
      StripEndShape(s[..|s| - 1]);
      var t := StripEnd(s[..|s| - 1]);
      assert s[|t|..] == s[..|s| - 1][|t|..] + [s[|s| - 1]];
    }
  }

  /** `strip` keeps a slice of `s` whose ends are not space, with only space cut away
      on either side. */
  lemma StripShape(s: string)
    ensures var t := Strip(s);
            exists i, j :: 0 <= i <= j <= |s| && t == s[i..j] && AllSpace(s[..i]) && AllSpace(s[j..])
    ensures var t := Strip(s); t != [] ==> !IsSpace(t[0]) && !IsSpace(t[|t| - 1])
  {
    var a := StripStart(s);
    StripStartShape(s);
    StripEndShape(a);
    var t := StripEnd(a);
    var i := |s| - |a|;
    var j := i + |t|;
    assert t == s[i..j] by {
      assert a == s[i..] && t == a[..|t|];
      assert s[i..j] == s[i..][..|t|];
    }
    assert AllSpace(s[j..]) by {
      assert s[j..] == a[|t|..];
    }
    assert t != [] ==> t[0] == a[0];
    assert AllSpace(s[..i]);
  }

  /** Stripping leaves nothing exactly when the text is blank. */
  lemma StripBlank(s: string)
    ensures Strip(s) == [] <==> AllSpace(s)
  {
    var t := Strip(s);
    StripShape(s);
    var i, j :| 0 <= i <= j <= |s| && t == s[i..j] && AllSpace(s[..i]) && AllSpace(s[j..]);
    if t == [] {
      forall k | 0 <= k < |s|
        ensures IsSpace(s[k])
      {
        if k < i {
          assert s[k] == s[..i][k];
        } else {
          assert s[k] == s[j..][k - j];
        }
      }
    }
  }

  // ---------------------------------------------------------------------------
  // string.Template.safe_substitute
  // ---------------------------------------------------------------------------

  predicate IsIdStart(c: char) {
    c == '_' || 'a' <= c <= 'z' || 'A' <= c <= 'Z'
  }

  predicate IsIdChar(c: char) {
    IsIdStart(c) || '0' <= c <= '9'
  }

  function IdTail(s: string): (n: nat)
    ensures n <= |s| && forall i :: 0 <= i < n ==> IsIdChar(s[i])
    ensures n < |s| ==> !IsIdChar(s[n])
  {
    if s == [] || !IsIdChar(s[0]) then 0 else 1 + IdTail(s[1..])
  }

  /** The length of the (longest) identifier at the start of `s`, 0 when none. */
  function IdLen(s: string): (n: nat)
    ensures n <= |s|
    ensures n > 0 ==> IsIdStart(s[0]) && forall i :: 0 <= i < n ==> IsIdChar(s[i])
    ensures 0 < n < |s| ==> !IsIdChar(s[n])
    ensures n == 0 ==> s == [] || !IsIdStart(s[0])
  {
    if s == [] || !IsIdStart(s[0]) then 0 else 1 + IdTail(s[1..])
  }

  /** An identifier. */
  predicate IsIdentifier(id: string) {
    |id| > 0 && IsIdStart(id[0]) && forall i :: 0 <= i < |id| ==> IsIdChar(id[i])
  }

  /** `s` starts with `${identifier}`. */
  predicate Braced(s: string) {
    |s| >= 2 && s[0] == '$' && s[1] == '{' && IdLen(s[2..]) > 0
    && 2 + IdLen(s[2..]) < |s| && s[2 + IdLen(s[2..])] == '}'
  }

  /** What `safe_substitute` makes of the `$` at the start of `s`: the text it puts
      out and how many characters it consumes. */
  datatype Piece = Piece(text: string, len: nat)

  /** One match of the template pattern: `$$` is an escaped `$`; `$name` (the longest
      identifier) and `${name}` are references, replaced when the name is known and
      kept otherwise; any other `$` is kept and the scan resumes after it. */
  function Reference(s: string, m: map<string, string>): (p: Piece)
    requires |s| > 0 && s[0] == '$'
    ensures 1 <= p.len <= |s|
  {
    if |s| >= 2 && s[1] == '$' then Piece("$", 2)
    else
      var n := IdLen(s[1..]);
      if n > 0 then
        var id := s[1..1 + n];
        Piece(if id in m then m[id] else "$" + id, 1 + n)
      else if Braced(s) then
        var k := IdLen(s[2..]);
        var id := s[2..2 + k];
        Piece(if id in m then m[id] else "${" + id + "}", 3 + k)
      else Piece("$", 1)
  }

  /** `Template(s).safe_substitute(m)`: every `$` is read by `Reference`, every
      other character is copied. */
  function Subst(s: string, m: map<string, string>): string
    decreases |s|
  {
    if s == [] then []
    else if s[0] != '$' then [s[0]] + Subst(s[1..], m)
    else
      var p := Reference(s, m);
      p.text + Subst(s[p.len..], m)
  }

  /** No two `$` in a row. */
  predicate NoEscapes(s: string) {
    forall i :: 0 <= i < |s| - 1 ==> !(s[i] == '$' && s[i + 1] == '$')
  }

  /** A `$` that is not doubled reads back as itself when no name is known. */
  lemma ReferenceUnknown(s: string, m: map<string, string>)
    requires |s| > 0 && s[0] == '$' && !(|s| >= 2 && s[1] == '$')
    requires forall id :: id in m ==> !IsIdentifier(id)
    ensures Reference(s, m).text == s[..Reference(s, m).len]
  {
    var n := IdLen(s[1..]);
    if n > 0 {
      var id := s[1..1 + n];
      assert id == s[1..][..n];
      assert IsIdentifier(id);
      assert s[..1 + n] == "$" + id;
    } else if Braced(s) {
      var k := IdLen(s[2..]);
      var id := s[2..2 + k];
      assert id == s[2..][..k];
      assert IsIdentifier(id);
      assert s[..3 + k] == "${" + id + "}";
    }
  }

  /** Text without `$$` in it is left unchanged when no name it refers to is known. */
  lemma {:induction false} SubstUnknown(s: string, m: map<string, string>)
    requires NoEscapes(s)
    requires forall id :: id in m ==> !IsIdentifier(id)
    ensures Subst(s, m) == s
    decreases |s|
  {
    if s == [] {
    } else if s[0] != '$' {
      NoEscapesSuffix(s, 1);
      SubstUnknown(s[1..], m);
    } else {
      ReferenceUnknown(s, m);
      var p := Reference(s, m);
      NoEscapesSuffix(s, p.len);
      SubstUnknown(s[p.len..], m);
      assert s == s[..p.len] + s[p.len..];
    }
  }

  /** What follows a text without `$$` has none either. */
  lemma NoEscapesSuffix(s: string, n: nat)
    requires NoEscapes(s) && n <= |s|
    ensures NoEscapes(s[n..])
  {
    var rest := s[n..];
    forall i | 0 <= i < |rest| - 1
      ensures !(rest[i] == '$' && rest[i + 1] == '$')
    {
      assert rest[i] == s[n + i] && rest[i + 1] == s[n + i + 1];
    }
  }

  /** Text without `$` is never changed. */
  lemma {:induction false} SubstPlain(s: string, m: map<string, string>)
    requires forall i :: 0 <= i < |s| ==> s[i] != '$'
    ensures Subst(s, m) == s
    decreases |s|
  {
    if s != [] {
      SubstPlain(s[1..], m);
    }
  }

  /** A known name is replaced by its text, in both spellings, when no identifier
      character follows the bare spelling. */
  lemma SubstKnown(id: string, rest: string, m: map<string, string>)
    requires IsIdentifier(id) && id in m
    requires rest == [] || !IsIdChar(rest[0])
    ensures Subst("$" + id + rest, m) == m[id] + Subst(rest, m)
    ensures Subst("${" + id + "}" + rest, m) == m[id] + Subst(rest, m)
  {
    ReferenceBare(id, rest, m);
    ReferenceBraced(id, rest, m);
    var s := "$" + id + rest;
    assert s[1 + |id|..] == rest;
    var b := "${" + id + "}" + rest;
    assert b[3 + |id|..] == rest;
  }

  lemma ReferenceBare(id: string, rest: string, m: map<string, string>)
    requires IsIdentifier(id) && id in m
    requires rest == [] || !IsIdChar(rest[0])
    ensures Reference("$" + id + rest, m) == Piece(m[id], 1 + |id|)
  {
    var s := "$" + id + rest;
    assert s[1..] == id + rest;
    IdLenOf(id, rest);
    assert s[1..1 + |id|] == id;
  }

  lemma ReferenceBraced(id: string, rest: string, m: map<string, string>)
    requires IsIdentifier(id) && id in m
    ensures Reference("${" + id + "}" + rest, m) == Piece(m[id], 3 + |id|)
  {
    var b := "${" + id + "}" + rest;
    assert b[1..][0] == '{';
    assert b[2..] == id + ("}" + rest);
    IdLenOf(id, "}" + rest);
    assert b[2..2 + |id|] == id && b[2 + |id|] == '}';
  }

  lemma {:induction false} IdLenOf(id: string, rest: string)
    requires IsIdentifier(id)
    requires rest == [] || !IsIdChar(rest[0])
    ensures IdLen(id + rest) == |id|
  {
    IdTailOf(id[1..], rest);
    assert (id + rest)[1..] == id[1..] + rest;
  }

  lemma {:induction false} IdTailOf(t: string, rest: string)
    requires forall i :: 0 <= i < |t| ==> IsIdChar(t[i])
    requires rest == [] || !IsIdChar(rest[0])
    ensures IdTail(t + rest) == |t|
    decreases |t|
  {
    if t == [] {
      assert t + rest == rest;
    } else {
      IdTailOf(t[1..], rest);
      assert (t + rest)[1..] == t[1..] + rest;
    }
  }

  /** Examples with only `HOME` known: a reference, an escaped `$`, and a `$` before
      a digit, which starts no reference. */
  lemma SubstReferenceExample()
    ensures Subst("$HOME", map["HOME" := "/home/u"]) == "/home/u"
  {
    var m := map["HOME" := "/home/u"];
    SubstKnown("HOME", "", m);
    assert "$" + "HOME" + "" == "$HOME";
  }

  lemma SubstEscapeExample()
    ensures Subst("$$5", map["HOME" := "/home/u"]) == "$5"
  {
    SubstPlain("5", map["HOME" := "/home/u"]);
  }

  lemma SubstStrayDollarExample()
    ensures Subst("$9", map["HOME" := "/home/u"]) == "$9"
  {
    assert "$9"[1..] == "9";
    SubstPlain("9", map["HOME" := "/home/u"]);
  }
}
