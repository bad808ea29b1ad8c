/**
 * String helpers the app relies on: JavaScript's String.prototype.trim, ASCII lower-casing,
 * the decimal rendering of numbers in template strings, and String.prototype.split on one
 * separator character, and the query-string lookup of URLSearchParams.
 */
module Text {
  import opened Wrappers

  /** The WhiteSpace and LineTerminator code points that String.prototype.trim strips. */
  predicate IsJsSpace(c: char) {
    c == '\t' || c == '\n' || c == '\U{000B}' || c == '\U{000C}' || c == '\r' || c == ' '
    || c == '\U{00A0}' || c == '\U{1680}' || ('\U{2000}' <= c <= '\U{200A}')
    || c == '\U{2028}' || c == '\U{2029}' || c == '\U{202F}' || c == '\U{205F}'
    || c == '\U{3000}' || c == '\U{FEFF}'
  }

  predicate AllSpace(s: string) {
    forall i :: 0 <= i < |s| ==> IsJsSpace(s[i])
  }

  /** Drops the leading white space. */
  function TrimStart(s: string): (r: string)
    ensures |r| <= |s| && r == s[|s| - |r|..]
    ensures r == [] || !IsJsSpace(r[0])
  {
    if s != [] && IsJsSpace(s[0]) then TrimStart(s[1..]) else s
  }

  /** What TrimStart drops is white space. */
  lemma {:induction false} TrimStartDropsSpace(s: string)
    ensures AllSpace(s[..|s| - |TrimStart(s)|])
  {
    if s != [] && IsJsSpace(s[0]) {
      TrimStartDropsSpace(s[1..]);
      assert s[..|s| - |TrimStart(s)|] == [s[0]] + s[1..][..|s[1..]| - |TrimStart(s[1..])|];
    }
  }

  /** Drops the trailing white space. */
  function TrimEnd(s: string): (r: string)
    ensures |r| <= |s| && r == s[..|r|]
    ensures r == [] || !IsJsSpace(r[|r| - 1])
  {
    if s != [] && IsJsSpace(s[|s| - 1]) then TrimEnd(s[..|s| - 1]) else s
  }

  /** What TrimEnd drops is white space. */
  lemma {:induction false} TrimEndDropsSpace(s: string)
    ensures AllSpace(s[|TrimEnd(s)|..])
  {
    if s != [] && IsJsSpace(s[|s| - 1]) {
      var init := s[..|s| - 1];
      TrimEndDropsSpace(init);
      assert s[|TrimEnd(s)|..] == init[|TrimEnd(init)|..] + [s[|s| - 1]];
    }
  }

  /** String.prototype.trim: white space is gone from both ends of the result. */
  function Trim(s: string): (r: string)
    ensures |r| <= |s|
    ensures r == [] || (!IsJsSpace(r[0]) && !IsJsSpace(r[|r| - 1]))
  {
    TrimEnd(TrimStart(s))
  }

  /** What Trim keeps is the middle of `s`: only white space is dropped, in front and behind. */
  lemma TrimIsMiddle(s: string)
    ensures var lead := |s| - |TrimStart(s)|;
            && lead + |Trim(s)| <= |s|
            && (forall i :: 0 <= i < |Trim(s)| ==> Trim(s)[i] == s[lead + i])
            && AllSpace(s[..lead]) && AllSpace(s[lead + |Trim(s)|..])
  {
    var t := TrimStart(s);
    var r := TrimEnd(t);
    var lead := |s| - |t|;
    TrimStartDropsSpace(s);
    TrimEndDropsSpace(t);
    MiddleOfSuffix(s, t, r);
  }

  /** A prefix `r` of a suffix `t` of `s` sits in `s` just after what `t` leaves out. */
  lemma MiddleOfSuffix(s: string, t: string, r: string)
    requires |t| <= |s| && t == s[|s| - |t|..] && |r| <= |t| && r == t[..|r|]
    requires AllSpace(t[|r|..])
    ensures var lead := |s| - |t|;
            r == s[lead..lead + |r|] && AllSpace(s[lead + |r|..])
  {
    var lead := |s| - |t|;
    assert t[|r|..] == s[lead + |r|..];
  }

  /** A form field is blank when `field.trim()` is the empty, falsy string. */
  predicate IsBlank(s: string) {
    Trim(s) == []
  }

  lemma BlankIffAllSpace(s: string)
    ensures IsBlank(s) <==> AllSpace(s)
  {
    var lead := |s| - |TrimStart(s)|;
    TrimIsMiddle(s);
    if IsBlank(s) {
      assert s == s[..lead] + s[lead..];
    } else {
      assert Trim(s)[0] == s[lead];
    }
  }

  lemma TrimIdempotent(s: string)
    ensures Trim(Trim(s)) == Trim(s)
  {
    var r := Trim(s);
    if r != [] {
      assert TrimStart(r) == r;
      assert TrimEnd(r) == r;
    }
  }

  /** White space in front of a string that starts with no white space is all TrimStart drops. */
  lemma {:induction false} TrimStartOfPadded(pad: string, s: string)
    requires AllSpace(pad) && (s == [] || !IsJsSpace(s[0]))
    ensures TrimStart(pad + s) == s
  {
    if pad != [] {
      assert (pad + s)[1..] == pad[1..] + s;
      TrimStartOfPadded(pad[1..], s);
    }
  }

  /** White space after a string that ends with no white space is all TrimEnd drops. */
  lemma {:induction false} TrimEndOfPadded(s: string, pad: string)
    requires AllSpace(pad) && (s == [] || !IsJsSpace(s[|s| - 1]))
    ensures TrimEnd(s + pad) == s
  {
    if pad != [] {
      assert (s + pad)[..|s + pad| - 1] == s + pad[..|pad| - 1];
      TrimEndOfPadded(s, pad[..|pad| - 1]);
    } else {
      assert s + pad == s;
    }
  }

  /** Trim gives back a text with no white space at its ends, whatever white space surrounds it. */
  lemma TrimOfPadded(before: string, s: string, after: string)
    requires AllSpace(before) && AllSpace(after)
    requires s != [] && !IsJsSpace(s[0]) && !IsJsSpace(s[|s| - 1])
    ensures Trim(before + s + after) == s
  {
    assert before + s + after == before + (s + after);
    TrimStartOfPadded(before, s + after);
    TrimEndOfPadded(s, after);
  }

  /** String.prototype.toLowerCase restricted to ASCII letters. */
  function LowerAscii(c: char): (r: char)
    ensures 'A' <= c <= 'Z' ==> 'a' <= r <= 'z' && r as int == c as int + 32
    ensures !('A' <= c <= 'Z') ==> r == c
  {
    if 'A' <= c <= 'Z' then (c as int + 32) as char else c
  }

  function ToLowerAscii(s: string): (r: string)
    ensures |r| == |s| && forall i :: 0 <= i < |s| ==> r[i] == LowerAscii(s[i])
  {
    seq(|s|, i requires 0 <= i < |s| => LowerAscii(s[i]))
  }

  /** A string that neither starts nor ends with white space is its own trim. */
  lemma TrimOfUnpadded(s: string)
    requires s != [] && !IsJsSpace(s[0]) && !IsJsSpace(s[|s| - 1])
    ensures Trim(s) == s
  {
    assert TrimStart(s) == s;
    assert TrimEnd(s) == s;
  }

  /** Lower-casing leaves white space alone and works piece by piece. */
  lemma LowerOfPadded(before: string, s: string, after: string)
    requires AllSpace(before) && AllSpace(after)
    ensures ToLowerAscii(before + s + after) == before + ToLowerAscii(s) + after
  {
    var whole := before + s + after;
    var r := ToLowerAscii(whole);
    forall i | 0 <= i < |whole|
      ensures r[i] == (before + ToLowerAscii(s) + after)[i]
    {
      if i < |before| {
        assert whole[i] == before[i] && IsJsSpace(before[i]);
      } else if i >= |before| + |s| {
        assert whole[i] == after[i - |before| - |s|] && IsJsSpace(after[i - |before| - |s|]);
      }
    }
  }

  // ---------------------------------------------------------------------------------------
  // Decimal rendering of a number, as `${n}` does in a template string.

  predicate IsDigit(c: char) { '0' <= c <= '9' }

  predicate AllDigits(s: string) { forall i :: 0 <= i < |s| ==> IsDigit(s[i]) }

  function DigitChar(d: nat): (c: char)
    requires d < 10
    ensures IsDigit(c) && c as int - '0' as int == d
  {
    ('0' as int + d) as char
  }

  /** The decimal digits of `n`, most significant first, with no leading zero. */
  function NatToString(n: nat): (r: string)
    ensures |r| >= 1 && AllDigits(r)
    ensures r[0] == '0' ==> n == 0 && r == "0"
    decreases n
  {
    if n < 10 then [DigitChar(n)] else NatToString(n / 10) + [DigitChar(n % 10)]
  }

  /** The number a string of decimal digits denotes (`parseInt(s, 10)` on digits). */
  function DecimalValue(s: string): nat
    requires AllDigits(s)
  {
    if s == [] then 0 else 10 * DecimalValue(s[..|s| - 1]) + (s[|s| - 1] as int - '0' as int)
  }

  lemma {:induction false} DecimalRoundTrip(n: nat)
    ensures DecimalValue(NatToString(n)) == n
    decreases n
  {
    if n >= 10 {
      var r := NatToString(n);
      assert r[..|r| - 1] == NatToString(n / 10);
      DecimalRoundTrip(n / 10);
    }
  }

  /** Two different numbers never print the same. */
  lemma NatToStringInjective(m: nat, n: nat)
    requires NatToString(m) == NatToString(n)
    ensures m == n
  {
    DecimalRoundTrip(m);
    DecimalRoundTrip(n);
  }

  // ---------------------------------------------------------------------------------------
  // String.prototype.split with a one-character separator.

  /**
   * `s.split(sep)`: the pieces between the separators, at least one (`"".split("#") == [""]`).
   * The first piece is the prefix of `s` before its first separator.
   */
  function Split(s: string, sep: char): (parts: seq<string>)
    ensures |parts| >= 1
    ensures forall i :: 0 <= i < |parts| ==> sep !in parts[i]
    ensures |parts[0]| <= |s| && parts[0] == s[..|parts[0]|]
    ensures |parts[0]| < |s| ==> s[|parts[0]|] == sep
    ensures sep !in s ==> parts == [s]
  {
    if s == [] then [[]]
    else
      var rest := Split(s[1..], sep);
      if s[0] == sep then [[]] + rest
      else
        assert sep !in s ==> [s[0]] + s[1..] == s;
        [[s[0]] + rest[0]] + rest[1..]
  }

  /** `parts.join(sep)`. */
  function Join(parts: seq<string>, sep: char): string
    requires |parts| >= 1
  {
    if |parts| == 1 then parts[0] else parts[0] + [sep] + Join(parts[1..], sep)
  }

  /** Joining a part in front of at least one more puts the separator between them. */
  lemma JoinCons(first: string, rest: seq<string>, sep: char)
    requires |rest| >= 1
    ensures Join([first] + rest, sep) == first + [sep] + Join(rest, sep)
  {
    assert ([first] + rest)[1..] == rest;
  }

  /** Splitting then joining on the same separator gives the string back. */
  lemma {:induction false} SplitJoin(s: string, sep: char)
    ensures Join(Split(s, sep), sep) == s
  {
    if s != [] {
      var rest := Split(s[1..], sep);
      SplitJoin(s[1..], sep);
      if s[0] == sep {
        assert Split(s, sep)[1..] == rest;
      } else {
        var parts := Split(s, sep);
        if |rest| == 1 {
          assert parts == [[s[0]] + rest[0]];
        } else {
          assert parts[1..] == rest[1..];
          assert Join(rest, sep) == rest[0] + [sep] + Join(rest[1..], sep);
        }
      }
    }
  }

  /** `s.split(sep)[0]`: everything before the first separator. */
  function BeforeFirst(s: string, sep: char): (r: string)
    ensures sep !in r && |r| <= |s| && r == s[..|r|]
    ensures |r| == |s| || s[|r|] == sep
  {
    Split(s, sep)[0]
  }

  predicate StartsWith(s: string, prefix: string) {
    |prefix| <= |s| && s[..|prefix|] == prefix
  }

  /** A separator ends the first part: what follows is split on its own. */
  lemma {:induction false} SplitAfterSeparator(a: string, b: string, sep: char)
    requires sep !in a
    ensures Split(a + [sep] + b, sep) == [a] + Split(b, sep)
  {
    if a == [] {
      assert ([sep] + b)[1..] == b;
    } else {
      var w := a + [sep] + b;
      SplitAfterSeparator(a[1..], b, sep);
      assert w[1..] == a[1..] + [sep] + b;
      assert w[0] == a[0] && [a[0]] + a[1..] == a;
      var rest := Split(w[1..], sep);
      assert rest == [a[1..]] + Split(b, sep);
      assert Split(w, sep) == [[a[0]] + rest[0]] + rest[1..];
    }
  }

  /** Joining parts free of the separator and splitting again gives the parts back. */
  lemma {:induction false} JoinSplit(parts: seq<string>, sep: char)
    requires |parts| >= 1
    requires forall i :: 0 <= i < |parts| ==> sep !in parts[i]
    ensures Split(Join(parts, sep), sep) == parts
  {
    if |parts| > 1 {
      JoinSplit(parts[1..], sep);
      SplitAfterSeparator(parts[0], Join(parts[1..], sep), sep);
      assert parts == [parts[0]] + parts[1..];
    }
  }

  /** The name of a `name=value` pair: everything before the first `=`. */
  function ParamName(pair: string): string {
    BeforeFirst(pair, '=')
  }

  /** The value of a `name=value` pair: everything after the first `=`, or empty without one. */
  function ParamValue(pair: string): (r: string)
    ensures |ParamName(pair)| < |pair| ==> pair == ParamName(pair) + "=" + r
    ensures |ParamName(pair)| == |pair| ==> r == ""
  {
    var name := ParamName(pair);
    if |name| < |pair| then pair[|name| + 1..] else ""
  }

  /** The value of the first pair with this name. */
  function FirstParam(pairs: seq<string>, name: string): (r: Option<string>)
    ensures r.Some? ==> exists i :: 0 <= i < |pairs| && ParamName(pairs[i]) == name && r.value == ParamValue(pairs[i])
                                   && forall j :: 0 <= j < i ==> ParamName(pairs[j]) != name
    ensures r.None? <==> forall i :: 0 <= i < |pairs| ==> ParamName(pairs[i]) != name
  {
    if pairs == [] then None
    else if ParamName(pairs[0]) == name then Some(ParamValue(pairs[0]))
    else
      var r := FirstParam(pairs[1..], name);
      assert forall i :: 0 < i < |pairs| ==> pairs[i] == pairs[1..][i - 1];
      r
  }

  /** The value of the last pair with this name. */
  function LastParam(pairs: seq<string>, name: string): (r: Option<string>)
    ensures r.Some? ==> exists i :: 0 <= i < |pairs| && ParamName(pairs[i]) == name && r.value == ParamValue(pairs[i])
                                   && forall j :: i < j < |pairs| ==> ParamName(pairs[j]) != name
    ensures r.None? <==> forall i :: 0 <= i < |pairs| ==> ParamName(pairs[i]) != name
  {
    if pairs == [] then None
    else
      assert forall i :: 0 < i < |pairs| ==> pairs[i] == pairs[1..][i - 1];
      match LastParam(pairs[1..], name)
      case Some(v) => Some(v)
      case None => if ParamName(pairs[0]) == name then Some(ParamValue(pairs[0])) else None
  }

  /**
   * A query parameter as the server's framework reads it: one leading `?` is dropped, the
   * pairs are separated by `&`, and a name given twice takes its last value.
   */
  function ServerQueryParam(query: string, name: string): Option<string> {
    var body := if |query| > 0 && query[0] == '?' then query[1..] else query;
    LastParam(Split(body, '&'), name)
  }

  /**
   * `new URLSearchParams(query).get(name)`: one leading `?` is dropped and the pairs are
   * separated by `&`.
   */
  function QueryParam(query: string, name: string): Option<string> {
    var body := if |query| > 0 && query[0] == '?' then query[1..] else query;
    FirstParam(Split(body, '&'), name)
  }

  /** A query holding one `name=value` pair yields that value for the name. */
  lemma QueryParamOfPair(name: string, value: string)
    requires name != [] && name[0] != '?'
    requires '=' !in name && '&' !in name && '&' !in value
    ensures QueryParam(name + "=" + value, name) == Some(value)
    ensures Split(name + "=" + value, '&') == [name + "=" + value]
  {
    var q := name + "=" + value;
    assert '&' !in q by {
      forall k | 0 <= k < |q| ensures q[k] != '&' {
        if k < |name| { assert q[k] == name[k]; }
        else if k > |name| { assert q[k] == value[k - |name| - 1]; }
      }
    }
    assert Split(q, '&') == [q];
    SplitAfterSeparator(name, value, '=');
    assert q == name + ['='] + value;
    assert ParamName(q) == name;
  }

  /** The same after the leading `?` of a query string. */
  lemma QueryParamOfMarkedPair(name: string, value: string)
    requires name != [] && name[0] != '?'
    requires '=' !in name && '&' !in name && '&' !in value
    ensures QueryParam("?" + name + "=" + value, name) == Some(value)
  {
    var q := "?" + name + "=" + value;
    assert q[1..] == name + "=" + value;
    QueryParamOfPair(name, value);
  }

  /** The server reads a lone marked pair the same way. */
  lemma ServerQueryParamOfMarkedPair(name: string, value: string)
    requires name != [] && name[0] != '?'
    requires '=' !in name && '&' !in name && '&' !in value
    ensures ServerQueryParam("?" + name + "=" + value, name) == Some(value)
  {
    var q := "?" + name + "=" + value;
    assert q[1..] == name + "=" + value;
    QueryParamOfPair(name, value);
    assert LastParam([name + "=" + value][1..], name) == None;
  }
}
