/** The few pieces of Python string behaviour the services rely on:
    `str.strip()` with no argument, the blank test `not s or not s.strip()`,
    `sep.join(parts)`, and a one-character split defined only as the
    inverse of joining, to state round trips. */
module Text {

  /** The characters `str.isspace()` accepts, which are the ones `str.strip()`
      removes when called without an argument. */
  predicate IsSpace(c: char) {
    || c == ' ' || c == '\t' || c == '\n' || c == '\r'
    || c == '\U{000B}' || c == '\U{000C}'
    || c == '\U{001C}' || c == '\U{001D}' || c == '\U{001E}' || c == '\U{001F}'
    || c == '\U{0085}' || c == '\U{00A0}' || c == '\U{1680}'
    || ('\U{2000}' <= c <= '\U{200A}')
    || c == '\U{2028}' || c == '\U{2029}' || c == '\U{202F}' || c == '\U{205F}'
    || c == '\U{3000}'
  }

  /** Every character of `s` is whitespace (vacuously true of ""). */
  predicate AllSpace(s: string) {
    forall i :: 0 <= i < |s| ==> IsSpace(s[i])
  }

  /** `s` with its leading whitespace removed. */
  function TrimStart(s: string): string {
    if s != [] && IsSpace(s[0]) then TrimStart(s[1..]) else s
  }

  /** `s` with its trailing whitespace removed. */
  function TrimEnd(s: string): string {
    if s != [] && IsSpace(s[|s| - 1]) then TrimEnd(s[..|s| - 1]) else s
  }

  /** TrimStart keeps a suffix of its input, cuts only whitespace, and stops
      at the first character that is not whitespace. */
  lemma {:induction false} TrimStartShape(s: string)
    ensures var r := TrimStart(s);
      && |r| <= |s| && r == s[|s| - |r|..]
      && AllSpace(s[..|s| - |r|])
      && (r == [] || !IsSpace(r[0]))
  {
    if s != [] && IsSpace(s[0]) {
      TrimStartShape(s[1..]);
      var r := TrimStart(s[1..]);
      assert s[..|s| - |r|] == [s[0]] + s[1..][..|s[1..]| - |r|];
    }
  }

  /** TrimEnd keeps a prefix of its input, cuts only whitespace, and stops
      at the last character that is not whitespace. */
  lemma {:induction false} TrimEndShape(s: string)
    ensures var r := TrimEnd(s);
      && |r| <= |s| && r == s[..|r|]
      && AllSpace(s[|r|..])
      && (r == [] || !IsSpace(r[|r| - 1]))
  {
    if s != [] && IsSpace(s[|s| - 1]) {
      var s' := s[..|s| - 1];
      TrimEndShape(s');
      var r := TrimEnd(s');
      assert s[|r|..] == s'[|r|..] + [s[|s| - 1]];
    }
  }

  /** Python's `s.strip()`: never longer than its input, and with no
      whitespace left at either end. */
  function Strip(s: string): (r: string)
    ensures |r| <= |s|
    ensures r == [] || (!IsSpace(r[0]) && !IsSpace(r[|r| - 1]))
  {
    TrimStartShape(s);
    TrimEndShape(TrimStart(s));
    TrimEnd(TrimStart(s))
  }

  /** Python's `not s or not s.strip()`: the test every service uses to
      decide that a text carries nothing. It holds exactly when every
      character is whitespace. */
  function IsBlank(s: string): (b: bool)
    ensures b <==> AllSpace(s)
  {
    BlankIffAllSpace(s);
    Strip(s) == []
  }

  /** The result of `strip()` is a contiguous piece of its input with no
      whitespace at either end, and only whitespace was cut away. */
  lemma StripShape(s: string)
    ensures var r := Strip(s);
      exists i :: 0 <= i <= |s| - |r| && r == s[i..i + |r|]
        && AllSpace(s[..i]) && AllSpace(s[i + |r|..])
        && (r == [] || (!IsSpace(r[0]) && !IsSpace(r[|r| - 1])))
  {
    var t := TrimStart(s);
    var r := TrimEnd(t);
    TrimStartShape(s);
    TrimEndShape(t);
    var i := |s| - |t|;
    assert r == s[i..i + |r|];
    assert s[i + |r|..] == t[|r|..];
  }

  /** Stripping leaves nothing exactly when the text is only whitespace. */
  lemma BlankIffAllSpace(s: string)
    ensures TrimEnd(TrimStart(s)) == [] <==> AllSpace(s)
  {
    var t := TrimStart(s);
    TrimStartShape(s);
    TrimEndShape(t);
    if TrimEnd(t) == [] {
      assert t[0..] == t;
      assert s == s[..|s| - |t|] + t;
    } else {
      var r := TrimEnd(t);
      assert r[0] == s[|s| - |t|];
    }
  }

  /** Python's `sep.join(parts)`: a join of n >= 1 parts holds the parts
      plus n - 1 separators. */
  function Join(sep: string, parts: seq<string>): (r: string)
    ensures |parts| >= 1 ==> |r| == TotalLength(parts) + (|parts| - 1) * |sep|
  {
    if |parts| == 0 then ""
    else if |parts| == 1 then parts[0]
    else parts[0] + sep + Join(sep, parts[1..])
  }

  /** `join` builds its result left to right: appending a part appends the
      separator and that part. */
  lemma {:induction false} JoinSnoc(sep: string, parts: seq<string>, p: string)
    ensures Join(sep, parts + [p]) == if parts == [] then p else Join(sep, parts) + sep + p
  {
    if |parts| >= 2 {
      assert (parts + [p])[1..] == parts[1..] + [p];
      JoinSnoc(sep, parts[1..], p);
    }
  }

  /** The total length of a list of strings. */
  function TotalLength(parts: seq<string>): nat {
    if parts == [] then 0 else |parts[0]| + TotalLength(parts[1..])
  }

  /** Splitting on a one-character separator, as Python's `s.split(c)` does:
      the pieces between the occurrences of `c`, always at least one. The
      services never split; this is the inverse that the round-trip lemmas
      state joins against. */
  function SplitOn(s: string, c: char): (r: seq<string>)
    ensures |r| >= 1
  {
    if s == [] then [""]
    else if s[0] == c then [""] + SplitOn(s[1..], c)
    else
      var rest := SplitOn(s[1..], c);
      [[s[0]] + rest[0]] + rest[1..]
  }

  /** A piece free of the separator is glued to the first piece of what follows. */
  lemma {:induction false} SplitOnPrefix(p: string, t: string, c: char)
    requires c !in p
    ensures SplitOn(p + t, c) == [p + SplitOn(t, c)[0]] + SplitOn(t, c)[1..]
  {
    if p != [] {
      assert (p + t)[0] == p[0];
      assert (p + t)[1..] == p[1..] + t;
      SplitOnPrefix(p[1..], t, c);
      assert [p[0]] + (p[1..] + SplitOn(t, c)[0]) == p + SplitOn(t, c)[0];
    } else {
      var st := SplitOn(t, c);
      assert p + t == t;
      assert p + st[0] == st[0];
      assert st == [st[0]] + st[1..];
    }
  }

  /** Splitting a join on its one-character separator gives the parts back,
      provided no part contains the separator. */
  lemma {:induction false} SplitJoin(parts: seq<string>, c: char)
    requires |parts| >= 1
    requires forall i :: 0 <= i < |parts| ==> c !in parts[i]
    ensures SplitOn(Join([c], parts), c) == parts
  {
    if |parts| == 1 {
      SplitOnPrefix(parts[0], "", c);
      assert parts[0] + "" == parts[0];
    } else {
      var tail := Join([c], parts[1..]);
      assert Join([c], parts) == parts[0] + ([c] + tail);
      SplitOnPrefix(parts[0], [c] + tail, c);
      assert ([c] + tail)[0] == c;
      assert ([c] + tail)[1..] == tail;
      assert SplitOn([c] + tail, c) == [""] + SplitOn(tail, c);
      SplitJoin(parts[1..], c);
      assert parts[0] + "" == parts[0];
      assert parts == [parts[0]] + parts[1..];
    }
  }
}
